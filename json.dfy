/**
 * Parsed JSON values as the bridge sees them after `json.loads`, and the few
 * pieces of Python semantics the bridge applies to them.
 */
module Json {
  import opened Wrappers

  /** A decoded JSON document. Numbers are integers only. */
  datatype Json =
    | JNull
    | JBool(b: bool)
    | JNum(n: int)
    | JStr(s: string)
    | JArr(items: seq<Json>)
    | JObj(fields: map<string, Json>)

  /** The bridge's error shape: a dict whose only key is `"error"`. */
  function ErrorObject(message: string): (r: Json)
    ensures r.JObj? && r.fields.Keys == {"error"} && r.fields["error"] == JStr(message)
  {
    JObj(map["error" := JStr(message)])
  }

  /** The Python type a JSON value decodes to, as named in Python's error messages. */
  function TypeName(v: Json): string {
    match v
    case JNull => "NoneType"
    case JBool(_) => "bool"
    case JNum(_) => "int"
    case JStr(_) => "str"
    case JArr(_) => "list"
    case JObj(_) => "dict"
  }

  /** `p` occurs in `s` starting at index `i`. */
  predicate OccursAt(p: string, s: string, i: int) {
    0 <= i && i + |p| <= |s| && s[i..i + |p|] == p
  }

  /** Python's `p in s` for two strings. */
  function IsSubstring(p: string, s: string): (r: bool)
    ensures r <==> exists i :: OccursAt(p, s, i)
    decreases |s|
  {
    if |s| < |p| then
      assert forall i :: !OccursAt(p, s, i);
      false
    else if s[..|p|] == p then
      assert OccursAt(p, s, 0);
      true
    else
      var rest := IsSubstring(p, s[1..]);
      assert forall i :: OccursAt(p, s[1..], i) <==> OccursAt(p, s, i + 1) by {
        forall i ensures OccursAt(p, s[1..], i) <==> OccursAt(p, s, i + 1) {
          if 0 <= i && i + |p| <= |s| - 1 {
            assert s[1..][i..i + |p|] == s[i + 1..i + 1 + |p|];
          }
        }
      }
      assert rest ==> exists i :: OccursAt(p, s, i) by {
        if rest {
          var i :| OccursAt(p, s[1..], i);
          assert OccursAt(p, s, i + 1);
        }
      }
      assert (exists i :: OccursAt(p, s, i)) ==> rest by {
        if exists i :: OccursAt(p, s, i) {
          var i :| OccursAt(p, s, i);
          assert i != 0;
          assert OccursAt(p, s[1..], i - 1);
        }
      }
      rest
  }

  /**
   * Python's `key in v` for a string `key` and a decoded value `v`: key
   * membership for a dict, element membership for a list, substring for a
   * string; any other value raises TypeError, which is `None` here.
   */
  function PyContains(key: string, v: Json): (r: Option<bool>)
    ensures r.None? <==> (v.JNull? || v.JBool? || v.JNum?)
    ensures v.JObj? ==> r == Some(key in v.fields)
    ensures v.JArr? ==> r == Some(exists i :: 0 <= i < |v.items| && v.items[i] == JStr(key))
    ensures v.JStr? ==> r == Some(exists i :: OccursAt(key, v.s, i))
  {
    match v
    case JObj(m) => Some(key in m)
    case JArr(xs) => Some(JStr(key) in xs)
    case JStr(s) => Some(IsSubstring(key, s))
    case _ => None
  }

  /** A list of strings as a JSON array. */
  function StringsToJson(xs: seq<string>): (r: seq<Json>)
    ensures |r| == |xs| && forall i :: 0 <= i < |xs| ==> r[i] == JStr(xs[i])
  {
    seq(|xs|, i requires 0 <= i < |xs| => JStr(xs[i]))
  }

  /** Reads a list of JSON strings back; `None` if an element is not a string. */
  function StringsFromJson(items: seq<Json>): (r: Option<seq<string>>)
    decreases |items|
  {
    if items == [] then Some([])
    else if !items[0].JStr? then None
    else
      match StringsFromJson(items[1..])
      case None => None
      case Some(rest) => Some([items[0].s] + rest)
  }

  lemma {:induction false} StringsRoundTrip(xs: seq<string>)
    ensures StringsFromJson(StringsToJson(xs)) == Some(xs)
    decreases |xs|
  {
    if xs != [] {
      StringsRoundTrip(xs[1..]);
      assert StringsToJson(xs)[1..] == StringsToJson(xs[1..]);
      assert [xs[0]] + xs[1..] == xs;
    }
  }
}
