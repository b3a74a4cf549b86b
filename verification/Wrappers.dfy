/** The Option type and the `namespace/name` keys shared by the other modules. */
module Wrappers {

  datatype Option<+T> = None | Some(value: T) {
    function GetOr(default: T): T {
      match this
      case Some(v) => v
      case None => default
    }
  }

  /** `HashMap::get`. */
  function Lookup<K, V>(m: map<K, V>, k: K): Option<V> {
    if k in m then Some(m[k]) else None
  }

  function Last<T>(s: seq<T>): T
    requires s != []
  {
    s[|s| - 1]
  }

  /** The string key `"{namespace}/{name}"` used by the secret cache and by the trigger maps. */
  function JoinKey(ns: string, name: string): string {
    ns + "/" + name
  }

  /** String keys stand for (namespace, name) pairs, because a namespace has no slash. */
  lemma JoinKeyIdentifies(ns1: string, name1: string, ns2: string, name2: string)
    requires '/' !in ns1 && '/' !in ns2
    ensures JoinKey(ns1, name1) == JoinKey(ns2, name2) <==> ns1 == ns2 && name1 == name2
  {
    var k1, k2 := JoinKey(ns1, name1), JoinKey(ns2, name2);
    if k1 == k2 {
      assert k1[|ns1|] == '/' && k2[|ns2|] == '/';
      assert forall i :: 0 <= i < |ns1| ==> k1[i] == ns1[i] != '/';
      assert forall i :: 0 <= i < |ns2| ==> k2[i] == ns2[i] != '/';
      assert |ns1| == |ns2|;
      assert ns1 == k1[..|ns1|] && ns2 == k2[..|ns2|];
      assert name1 == k1[|ns1| + 1..] && name2 == k2[|ns2| + 1..];
    }
  }

  /** With a slash in the namespace two different secrets could share one key. */
  lemma JoinKeyNeedsSlashFreeNamespaces()
    ensures exists a: string, b: string, c: string, d: string ::
      JoinKey(a, b) == JoinKey(c, d) && (a, b) != (c, d)
  {
    assert JoinKey("a/b", "c") == "a/b/c" == JoinKey("a", "b/c");
  }
}
