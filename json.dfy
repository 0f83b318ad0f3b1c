/** Parsed JSON values and the JavaScript operations the services apply to them:
    truthiness, property reads, object spread, and the recovery of a JSON object
    embedded in free text. `JSON.parse` itself is a parameter (`string -> Option<Json>`,
    `None` meaning that it throws). */
module Json {
  import opened Wrappers
  import opened Strings

  datatype Json =
    | JNull
    | JBool(b: bool)
    | JNumber(n: real)
    | JString(s: string)
    | JArray(items: seq<Json>)
    | JObject(fields: map<string, Json>)

  /** JavaScript truthiness of a parsed value (parsing never yields `NaN` or `undefined`). */
  predicate Truthy(v: Json) {
    match v
    case JNull => false
    case JBool(b) => b
    case JNumber(n) => n != 0.0
    case JString(s) => s != ""
    case JArray(_) => true
    case JObject(_) => true
  }

  /** `v.key` for a key that is neither `length` nor an index: only objects have it. */
  function Member(v: Json, key: string): (r: Option<Json>)
    ensures r.Some? <==> v.JObject? && key in v.fields
    ensures r.Some? ==> r.value == v.fields[key]
  {
    if v.JObject? && key in v.fields then Some(v.fields[key]) else None
  }

  /** `v.key || fallback`. */
  function MemberOr(v: Json, key: string, fallback: Json): (r: Json)
    ensures r == fallback || (Member(v, key).Some? && r == Member(v, key).value && Truthy(r))
    ensures Member(v, key).Some? && Truthy(Member(v, key).value) ==> r == Member(v, key).value
  {
    match Member(v, key)
    case Some(x) => if Truthy(x) then x else fallback
    case None => fallback
  }

  /** The own index properties `"0"`, `"1"`, … of an array-like value. */
  function Indexed(items: seq<Json>): (m: map<string, Json>)
    ensures forall k :: k in m ==> AllDigits(k)
    ensures forall i :: 0 <= i < |items| ==> NatToString(i) in m && m[NatToString(i)] == items[i]
    ensures forall k :: k in m ==> exists i :: 0 <= i < |items| && k == NatToString(i)
  {
    if |items| == 0 then map[]
    else
      var n := |items| - 1;
      var m := Indexed(items[..n]);
      NatToStringDistinct(n);
      DecimalRoundTrip(n);
      m[NatToString(n) := items[n]]
  }

  lemma NatToStringDistinct(n: nat)
    ensures forall i :: 0 <= i < n ==> NatToString(i) != NatToString(n)
  {
    forall i | 0 <= i < n ensures NatToString(i) != NatToString(n) {
      if NatToString(i) == NatToString(n) { NatToStringInjective(i, n); }
    }
  }

  function Characters(s: string): (r: seq<Json>)
    ensures |r| == |s| && forall i :: 0 <= i < |s| ==> r[i] == JString([s[i]])
  {
    seq(|s|, i requires 0 <= i < |s| => JString([s[i]]))
  }

  /** The properties `{...v}` copies: an object's fields, the characters of a string or
      the elements of an array under their indices, and nothing for other values. */
  function Spread(v: Json): (m: map<string, Json>)
    ensures v.JObject? ==> m == v.fields
    ensures v.JNull? || v.JBool? || v.JNumber? ==> m == map[]
    ensures v.JArray? ==> forall i :: 0 <= i < |v.items| ==> NatToString(i) in m && m[NatToString(i)] == v.items[i]
    ensures v.JString? ==> forall i :: 0 <= i < |v.s| ==> NatToString(i) in m && m[NatToString(i)] == JString([v.s[i]])
    ensures !v.JObject? ==> forall k :: k in m ==> AllDigits(k)
    ensures v.JArray? ==> forall k :: k in m ==> exists i :: 0 <= i < |v.items| && k == NatToString(i)
    ensures v.JString? ==> forall k :: k in m ==> exists i :: 0 <= i < |v.s| && k == NatToString(i)
  {
    match v
    case JObject(fields) => fields
    case JArray(items) => Indexed(items)
    case JString(s) => Indexed(Characters(s))
    case _ => map[]
  }

  /** The index of the first occurrence of `c` in `s`. */
  function FirstIndexOf(s: string, c: char): (r: Option<nat>)
    ensures r.None? <==> c !in s
    ensures r.Some? ==> r.value < |s| && s[r.value] == c && forall k :: 0 <= k < r.value ==> s[k] != c
  {
    if |s| == 0 then None
    else if s[0] == c then Some(0)
    else match FirstIndexOf(s[1..], c)
      case None => None
      case Some(k) => Some(k + 1)
  }

  /** The index of the last occurrence of `c` in `s`. */
  function LastIndexOf(s: string, c: char): (r: Option<nat>)
    ensures r.None? <==> c !in s
    ensures r.Some? ==> r.value < |s| && s[r.value] == c && forall k :: r.value < k < |s| ==> s[k] != c
  {
    if |s| == 0 then None
    else if s[|s| - 1] == c then Some(|s| - 1)
    else LastIndexOf(s[..|s| - 1], c)
  }

  /** What `s.match(/\{[\s\S]*\}/)` finds: the greedy match starts at the first `{` and
      ends at the last `}`, and there is one only when some `{` comes before some `}`. */
  function BraceSpan(s: string): Option<string> {
    match (FirstIndexOf(s, '{'), LastIndexOf(s, '}'))
    case (Some(a), Some(b)) => if a < b then Some(s[a..b + 1]) else None
    case _ => None
  }

  /** There is a span exactly when a `{` precedes a `}`. */
  lemma BraceSpanExists(s: string)
    ensures BraceSpan(s).Some? <==> exists i, j :: 0 <= i < j < |s| && s[i] == '{' && s[j] == '}'
  {
    if exists i, j :: 0 <= i < j < |s| && s[i] == '{' && s[j] == '}' {
      var i, j :| 0 <= i < j < |s| && s[i] == '{' && s[j] == '}';
      assert s[i] in s && s[j] in s;
      assert FirstIndexOf(s, '{').value <= i;
      assert LastIndexOf(s, '}').value >= j;
    }
  }

  /** A span begins with `{` and ends with `}`, and no `{` comes before it and no `}`
      after it. */
  lemma BraceSpanShape(s: string)
    requires BraceSpan(s).Some?
    ensures exists a, b ::
      && 0 <= a < b < |s| && BraceSpan(s).value == s[a..b + 1]
      && s[a] == '{' && s[b] == '}'
      && (forall k :: 0 <= k < a ==> s[k] != '{')
      && (forall k :: b < k < |s| ==> s[k] != '}')
  {
    var a, b := FirstIndexOf(s, '{').value, LastIndexOf(s, '}').value;
    assert BraceSpan(s).value == s[a..b + 1];
  }

  /** The recovery both services apply to a model reply: the parse of the whole text,
      otherwise the parse of its brace span, otherwise nothing. */
  function ParseOrSpan(raw: string, parse: string -> Option<Json>): (r: Option<Json>)
    ensures parse(raw).Some? ==> r == parse(raw)
    ensures parse(raw).None? && BraceSpan(raw).Some? ==> r == parse(BraceSpan(raw).value)
    ensures parse(raw).None? && BraceSpan(raw).None? ==> r.None?
  {
    if parse(raw).Some? then parse(raw)
    else match BraceSpan(raw)
      case Some(span) => parse(span)
      case None => None
  }

  /** A recovered value was parsed from the whole reply or from an infix of it that
      starts with `{` and ends with `}`. */
  lemma RecoveredFromReply(raw: string, parse: string -> Option<Json>)
    requires ParseOrSpan(raw, parse).Some?
    ensures parse(raw) == ParseOrSpan(raw, parse) ||
      exists a, b :: 0 <= a < b < |raw| && raw[a] == '{' && raw[b] == '}'
        && parse(raw[a..b + 1]) == ParseOrSpan(raw, parse)
  {
    if parse(raw).None? {
      BraceSpanShape(raw);
    }
  }
}
