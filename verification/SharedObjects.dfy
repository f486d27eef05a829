/** The delivery objects the dashboard watches, and the order the apiserver lists them in. */
module SharedObjects {
  import opened Order

  /** One version of one object: `fields` are the string fields it holds, by path. */
  datatype Object = Object(ns: string, name: string, fields: map<string, string>)

  function ObjectKey(o: Object): Key {
    [o.ns, o.name]
  }

  /** A missing field, or one that is no string, reads as empty. */
  function NestedString(o: Object, path: string): string {
    if path in o.fields then o.fields[path] else ""
  }

  const SPEC_STAGE := "spec.stage"
  const STATUS_OUTCOME := "status.outcome"

  /** By namespace, then by name. */
  predicate Precedes(a: Object, b: Object) {
    if a.ns != b.ns then Less(a.ns, b.ns) else Less(a.name, b.name)
  }

  lemma {:induction false} PrecedesIs(a: Object, b: Object)
    ensures Precedes(a, b) <==> Before(ObjectKey(a), ObjectKey(b))
  {
    LessIrreflexive(a.ns);
    LessIrreflexive(a.name);
    var x, y: Key := [a.name], [b.name];
    assert x[1..] == [] && y[1..] == [] && (Before(x, y) <==> Less(a.name, b.name));
    assert ObjectKey(a)[1..] == x && ObjectKey(b)[1..] == y;
  }
}
