/** The mock roster of lib/auth.ts; the session helpers (saveUser, getUser, logout) are storage plumbing and not modelled. */
module Auth {

  import opened Wrappers

  datatype Role = Student | Teacher | Psychologist

  datatype User = User(id: string, name: string, role: Role, email: string)

  /** `mockUsers`: two students, one teacher, one psychologist, with distinct ids. */
  function MockUsers(): (users: seq<User>)
    ensures |users| == 4
    ensures forall i, j :: 0 <= i < j < |users| ==> users[i].id != users[j].id
    ensures forall i :: 0 <= i < |users| ==> (users[i].role == Student <==> i < 2)
  {
    [ User("1", "Ana Silva", Student, "ana@escola.com"),
      User("2", "Carlos Santos", Student, "carlos@escola.com"),
      User("3", "Maria Oliveira", Teacher, "maria@escola.com"),
      User("4", "João Costa", Psychologist, "joao@escola.com") ]
  }

  /** `users.filter((u) => u.role === "student")`. */
  function Students(users: seq<User>): (r: seq<User>)
    ensures |r| <= |users|
    ensures forall u :: u in r <==> u in users && u.role == Student
  {
    if users == [] then []
    else (if users[0].role == Student then [users[0]] else []) + Students(users[1..])
  }

  /** `users.find((u) => u.id === id && u.role === "student")`: the first such user. */
  function FindStudent(users: seq<User>, id: string): (r: Option<User>)
    ensures r.Some? ==> r.value in users && r.value.id == id && r.value.role == Student
    ensures r.None? <==> forall u :: u in users ==> !(u.id == id && u.role == Student)
  {
    if users == [] then None
    else if users[0].id == id && users[0].role == Student then Some(users[0])
    else FindStudent(users[1..], id)
  }
}
