/** The part of a Zod object schema that the forms use: checks that report an issue
    at a field path, and the message a form shows for a field. */
module Forms {
  import opened Common

  /** One validation issue: the field it belongs to and its message. */
  datatype Issue = Issue(path: string, message: string)

  /** `z.string().min(n, message)`: an issue exactly when the value is too short. */
  function MinLength(path: string, value: string, n: nat, message: string): (issues: seq<Issue>)
    ensures issues == [] <==> |value| >= n
    ensures issues != [] ==> issues == [Issue(path, message)]
  {
    if |value| < n then [Issue(path, message)] else []
  }

  /** A check that holds or reports one issue at `path`. */
  function Check(ok: bool, path: string, message: string): (issues: seq<Issue>)
    ensures issues == [] <==> ok
    ensures !ok ==> issues == [Issue(path, message)]
  {
    if ok then [] else [Issue(path, message)]
  }

  /** The message shown under a field: the first issue reported for it. */
  function FieldMessage(issues: seq<Issue>, path: string): (m: Option<string>)
    ensures m.None? <==> forall i :: 0 <= i < |issues| ==> issues[i].path != path
    ensures m.Some? ==> exists i :: 0 <= i < |issues| && issues[i] == Issue(path, m.value)
    decreases |issues|
  {
    if issues == [] then None
    else if issues[0].path == path then Some(issues[0].message)
    else FieldMessage(issues[1..], path)
  }

  /** Issues for other fields before the first one for `path` do not change which
      message the field shows. */
  lemma {:induction false} FieldMessageAppend(xs: seq<Issue>, ys: seq<Issue>, path: string)
    ensures FieldMessage(xs + ys, path) == if FieldMessage(xs, path).Some? then FieldMessage(xs, path)
                                           else FieldMessage(ys, path)
    decreases |xs|
  {
    if xs != [] {
      assert (xs + ys)[1..] == xs[1..] + ys;
      FieldMessageAppend(xs[1..], ys, path);
    } else {
      assert xs + ys == ys;
    }
  }
}
