/** The records of `types/index.ts`. Every optional field is an `Option`; date fields that the
    pages compare or subtract are held as milliseconds since the epoch, with `None` standing
    for a field that is absent or the empty string (both falsy in the source). */
module Types {
  import opened Wrappers
  import Js

  /** Milliseconds since 1970-01-01T00:00:00Z, what `new Date(text).getTime()` yields. */
  type Millis = int

  const DAY: int := 24 * 60 * 60 * 1000

  datatype EmailEntity = EmailEntity(
    id: Option<int>,
    email: string,
    isVerified: bool,
    userId: int,
    createdAt: Option<string>)

  datatype User = User(
    id: Option<int>,
    username: string,
    password: Option<string>,
    createdAt: Option<string>,
    emails: Option<seq<EmailEntity>>)

  datatype Task = Task(
    id: Option<int>,
    text: Option<string>,
    isDeleted: Option<bool>,
    isCompleted: Option<bool>,
    deletedAt: Option<Millis>,
    completedAt: Option<Millis>,
    dueAt: Option<Millis>,
    createdAt: Option<Millis>,
    groupId: Option<int>)

  datatype Group = Group(
    id: Option<int>,
    name: Option<string>,
    description: Option<string>,
    isDeleted: bool,
    deletedAt: Option<Millis>,
    createdAt: Option<Millis>,
    updatedAt: Option<Millis>,
    tasks: Option<seq<Task>>)

  /** The user record `{ username }` the source builds when it has nothing better. */
  function NamedUser(username: string): User {
    User(None, username, None, None, None)
  }

  /** JavaScript truthiness of an optional flag: only a present `true` counts. */
  predicate IsSet(flag: Option<bool>) {
    flag == Some(true)
  }

  predicate Completed(t: Task) { IsSet(t.isCompleted) }

  predicate Deleted(t: Task) { IsSet(t.isDeleted) }

  /** Truthiness of an optional numeric id: absent and 0 are both falsy. */
  predicate IdIsTruthy(id: Option<int>) {
    id.Some? && id.value != 0
  }

  /** An optional id in a template literal: `${undefined}` writes "undefined". */
  function IdText(id: Option<int>): string {
    match id
    case None => "undefined"
    case Some(n) => Js.NumberText(n)
  }
}
