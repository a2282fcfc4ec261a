/**
 * What the frontend components share: the task as the list shows it, the
 * signed-in user's profile, and order-preserving subsequences, the shape every
 * list transform of the dashboard has.
 */
module ClientModel {
  import opened Results
  import opened JsValues
  import TaskSchema

  /** A task as the components read it from the API: `_id`, title, description, completed. */
  datatype TaskView = TaskView(id: string, title: string, description: string, completed: bool)

  /** The fields of a stored task the components show. */
  function Present(id: string, t: TaskSchema.Task): TaskView {
    TaskView(id, t.title, t.description, t.completed)
  }

  /** The signed-in user as the components receive it; `name` and `role` are whatever JSON the login returned. */
  datatype Profile = Profile(name: Value, role: Value)

  /** `user.role === 'admin'`. */
  predicate IsAdminProfile(user: Profile) {
    user.role == Str("admin")
  }

  /** `a` is `b` with some elements left out and the rest in their order. */
  predicate SubsequenceOf<T(==)>(a: seq<T>, b: seq<T>)
    decreases |b|
  {
    if a == [] then true
    else if b == [] then false
    else if a[0] == b[0] then SubsequenceOf(a[1..], b[1..])
    else SubsequenceOf(a, b[1..])
  }

  /** A subsequence of a list's tail is a subsequence of the list. */
  lemma {:induction false} SkipHeadKeepsSubsequence<T>(a: seq<T>, b: seq<T>)
    requires b != [] && SubsequenceOf(a, b[1..])
    ensures SubsequenceOf(a, b)
    decreases |b|, 0
  {
    if a != [] && a[0] == b[0] {
      SubsequenceDropsHead(a, b[1..]);
    }
  }

  /** A subsequence stays one when its own first element is dropped. */
  lemma {:induction false} SubsequenceDropsHead<T>(a: seq<T>, c: seq<T>)
    requires a != [] && SubsequenceOf(a, c)
    ensures SubsequenceOf(a[1..], c)
    decreases |c|, 1
  {
    if a[1..] != [] {
      if a[0] == c[0] {
        SkipHeadKeepsSubsequence(a[1..], c);
      } else {
        SubsequenceDropsHead(a, c[1..]);
        SkipHeadKeepsSubsequence(a[1..], c);
      }
    }
  }
}
