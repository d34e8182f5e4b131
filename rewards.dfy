/**
 * lib/rewards.ts: the reward catalogue and the purchases each student makes with points.
 */
module Rewards {

  import opened Records
  import opened Storage

  /** Each student's purchases live under "vozes_purchases_<userId>". */
  function PurchasesKey(userId: string): string
  {
    "vozes_purchases_" + userId
  }

  /** `availableRewards`: eleven items in four categories, with distinct ids and positive costs. */
  function AvailableRewards(): (items: seq<RewardItem>)
    ensures |items| == 11
    ensures forall i, j :: 0 <= i < j < |items| ==> items[i].id != items[j].id
    ensures forall i :: 0 <= i < |items| ==> items[i].cost > 0 && items[i].stock > 0
  {
    [ RewardItem("book-math", "Livro de Matemática", "Livro educacional de matemática avançada", "📚", 100, Educational, 10),
      RewardItem("book-science", "Livro de Ciências", "Guia completo de ciências naturais", "🔬", 100, Educational, 10),
      RewardItem("book-history", "Livro de História", "História do Brasil ilustrada", "📖", 100, Educational, 10),
      RewardItem("notebook", "Caderno Premium", "Caderno universitário de alta qualidade", "📓", 50, Educational, 20),
      RewardItem("shirt-blue", "Camisa Interclasse Azul", "Camisa oficial do time azul", "👕", 150, Sports, 15),
      RewardItem("shirt-red", "Camisa Interclasse Vermelha", "Camisa oficial do time vermelho", "👕", 150, Sports, 15),
      RewardItem("water-bottle", "Garrafa Esportiva", "Garrafa térmica para atividades físicas", "🥤", 80, Sports, 25),
      RewardItem("meditation-guide", "Guia de Meditação", "Aprenda técnicas de relaxamento", "🧘", 70, Wellness, 15),
      RewardItem("journal", "Diário de Gratidão", "Registre momentos positivos do seu dia", "📔", 60, Wellness, 20),
      RewardItem("trophy", "Troféu de Bem-Estar", "Reconhecimento especial por dedicação", "🏆", 300, SpecialReward, 5),
      RewardItem("certificate", "Certificado de Participação", "Certificado oficial do programa", "📜", 200, SpecialReward, 10) ]
  }

  /** `getUserPurchases`: the stored purchases of the student, or none. */
  function GetUserPurchases(st: LocalStorage, userId: string): (ps: seq<UserPurchase>)
    reads st
    ensures PurchasesKey(userId) !in st.items ==> ps == []
    ensures PurchasesKey(userId) in st.items && st.items[PurchasesKey(userId)].PurchaseList? ==> ps == st.items[PurchasesKey(userId)].purchases
  {
    var key := PurchasesKey(userId);
    if key in st.items && st.items[key].PurchaseList? then st.items[key].purchases else []
  }

  /** The purchase record `purchaseItem` builds, dated `now`. */
  function PurchaseOf(userId: string, item: RewardItem, now: Timestamp): UserPurchase
  {
    UserPurchase(userId, item.id, item.name, item.cost, now)
  }

  /**
   * `purchaseItem`: refused, with nothing recorded, when the points do not cover the cost;
   * otherwise exactly one purchase carrying the item's id, name and cost is appended.
   * The item's stock is neither checked nor decremented (the item is not modified).
   */
  method PurchaseItem(st: LocalStorage, userId: string, item: RewardItem, currentPoints: int, now: Timestamp)
    returns (ok: bool)
    requires st.Valid()
    modifies st
    ensures st.Valid()
    ensures ok <==> currentPoints >= item.cost
    ensures !ok ==> st.items == old(st.items) && st.keys == old(st.keys)
    ensures ok ==> st.items == old(st.items)[PurchasesKey(userId) :=
                                PurchaseList(old(GetUserPurchases(st, userId)) + [PurchaseOf(userId, item, now)])]
    ensures ok ==> GetTotalSpent(st, userId) == old(GetTotalSpent(st, userId)) + item.cost
  {
    if currentPoints < item.cost {
      return false;
    }

    var purchase := PurchaseOf(userId, item, now);
    var purchases := GetUserPurchases(st, userId);
    TotalAppend(purchases, [purchase]);
    purchases := purchases + [purchase];
    st.SetItem(PurchasesKey(userId), PurchaseList(purchases));
    return true;
  }

  /** `purchases.reduce((total, purchase) => total + purchase.cost, 0)`. */
  function Total(purchases: seq<UserPurchase>): (t: int)
    ensures purchases == [] ==> t == 0
    ensures |purchases| == 1 ==> t == purchases[0].cost
  {
    if purchases == [] then 0 else Total(purchases[..|purchases| - 1]) + purchases[|purchases| - 1].cost
  }

  /** `getTotalSpent`: the sum of the costs of the student's recorded purchases. */
  function GetTotalSpent(st: LocalStorage, userId: string): (spent: int)
    reads st
    ensures spent == Total(GetUserPurchases(st, userId))
    ensures PurchasesKey(userId) !in st.items ==> spent == 0
    ensures (forall p :: p in GetUserPurchases(st, userId) ==> p.cost >= 0) ==> spent >= 0
  {
    var purchases := GetUserPurchases(st, userId);
    if forall p :: p in purchases ==> p.cost >= 0 then
      TotalBounds(purchases);
      Total(purchases)
    else
      Total(purchases)
  }

  /** The total of two runs of purchases is the sum of their totals. */
  lemma {:induction false} TotalAppend(a: seq<UserPurchase>, b: seq<UserPurchase>)
    ensures Total(a + b) == Total(a) + Total(b)
    decreases |b|
  {
    if b != [] {
      var front := b[..|b| - 1];
      assert (a + b)[..|a + b| - 1] == a + front;
      TotalAppend(a, front);
    } else {
      assert a + b == a;
    }
  }

  /** Nothing is spent without purchases; with non-negative costs the total covers every single cost. */
  lemma {:induction false} TotalBounds(purchases: seq<UserPurchase>)
    requires forall i :: 0 <= i < |purchases| ==> purchases[i].cost >= 0
    ensures purchases == [] ==> Total(purchases) == 0
    ensures Total(purchases) >= 0
    ensures forall i :: 0 <= i < |purchases| ==> Total(purchases) >= purchases[i].cost
    decreases |purchases|
  {
    if purchases != [] {
      var front := purchases[..|purchases| - 1];
      TotalBounds(front);
      assert forall i :: 0 <= i < |front| ==> front[i] == purchases[i];
    }
  }
}
