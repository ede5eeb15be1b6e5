/** Values shared by every part of the model: optional values, the HTTP results the
    controllers return, the character classes the service tests, and the two list
    queries (Where and FirstOrDefault) that the controllers run against their tables. */
module Common {

  datatype Option<+T> = None | Some(value: T)

  /** A point in time (DateTime), as ticks. Clocks are inputs of the operations. */
  type Timestamp = int

  /** A decimal(18,2) amount, held exactly as a whole number of hundredths. */
  type Cents = int

  /** The action results the controllers produce. `BadRequest()` and `NotFound()` without a
      body carry `None`. */
  datatype Response<+T> =
    | Ok(value: T)
    | Created(value: T)
    | NoContent
    | BadRequest(detail: Option<string>)
    | NotFound(detail: Option<string>)
    | Forbid

  /** The characters .NET's char.IsWhiteSpace accepts: the space, line and paragraph
      separators and the control characters U+0009..U+000D and U+0085. */
  predicate IsWhiteSpace(c: char) {
    || '\U{0009}' <= c <= '\U{000D}'
    || c == ' ' || c == '\U{0085}' || c == '\U{00A0}' || c == '\U{1680}'
    || '\U{2000}' <= c <= '\U{200A}'
    || c == '\U{2028}' || c == '\U{2029}' || c == '\U{202F}' || c == '\U{205F}' || c == '\U{3000}'
  }

  /** string.IsNullOrWhiteSpace on a non-null string: empty, or whitespace only. */
  predicate IsBlank(s: string) {
    forall i :: 0 <= i < |s| ==> IsWhiteSpace(s[i])
  }

  /** char.IsDigit, restricted to the ASCII digits. */
  predicate IsDigit(c: char) {
    '0' <= c <= '9'
  }

  predicate AllDigits(s: string) {
    forall i :: 0 <= i < |s| ==> IsDigit(s[i])
  }

  /** A string with a character that is not whitespace is not blank. */
  lemma NotBlankWitness(s: string, i: int)
    requires 0 <= i < |s| && !IsWhiteSpace(s[i])
    ensures !IsBlank(s)
  {
  }

  /** LINQ `Where`: keeps, in order, exactly the elements that satisfy `p`, each as often as
      it occurs in `s`. */
  function Filter<T(==,!new)>(s: seq<T>, p: T -> bool): (r: seq<T>)
    ensures |r| <= |s|
    ensures forall x :: multiset(r)[x] == if p(x) then multiset(s)[x] else 0
    ensures forall x :: x in r <==> x in s && p(x)
    decreases |s|
  {
    if |s| == 0 then []
    else
      assert s == [s[0]] + s[1..];
      if p(s[0]) then [s[0]] + Filter(s[1..], p) else Filter(s[1..], p)
  }

  /** Keys that strictly increase along a table (identity columns in insertion order). */
  ghost predicate KeysIncreasing<T>(s: seq<T>, key: T -> int) {
    forall i, j :: 0 <= i < j < |s| ==> key(s[i]) < key(s[j])
  }

  /** The first key of an increasing table is below the key of every later row. */
  lemma HeadKeyBelowRest<T>(s: seq<T>, key: T -> int)
    requires KeysIncreasing(s, key) && |s| > 0
    ensures forall x :: x in s[1..] ==> key(s[0]) < key(x)
  {
    forall x | x in s[1..] ensures key(s[0]) < key(x) {
      var k :| 0 <= k < |s| - 1 && s[1..][k] == x;
      assert s[k + 1] == x;
    }
  }

  /** A key below every key of an increasing table can be put in front of it. */
  lemma ConsKeysIncreasing<T>(h: T, t: seq<T>, key: T -> int)
    requires KeysIncreasing(t, key)
    requires forall x :: x in t ==> key(h) < key(x)
    ensures KeysIncreasing([h] + t, key)
  {
    var r := [h] + t;
    forall a, b | 0 <= a < b < |r| ensures key(r[a]) < key(r[b]) {
      assert r[b] == t[b - 1] && r[b] in t;
      if a > 0 {
        assert r[a] == t[a - 1];
      }
    }
  }

  /** Filtering a table keeps its keys strictly increasing. */
  lemma {:induction false} FilterKeepsKeysIncreasing<T(!new)>(s: seq<T>, p: T -> bool, key: T -> int)
    requires KeysIncreasing(s, key)
    ensures KeysIncreasing(Filter(s, p), key)
    decreases |s|
  {
    if |s| > 0 {
      var tail := Filter(s[1..], p);
      FilterKeepsKeysIncreasing(s[1..], p, key);
      if p(s[0]) {
        HeadKeyBelowRest(s, key);
        ConsKeysIncreasing(s[0], tail, key);
      }
    }
  }

  /** Removing one row keeps the keys of the others strictly increasing. */
  lemma RemoveKeepsKeysIncreasing<T>(s: seq<T>, key: T -> int, i: int)
    requires KeysIncreasing(s, key) && 0 <= i < |s|
    ensures KeysIncreasing(s[..i] + s[i + 1..], key)
  {
    var r := s[..i] + s[i + 1..];
    forall a, b | 0 <= a < b < |r| ensures key(r[a]) < key(r[b]) {
      var a' := if a < i then a else a + 1;
      var b' := if b < i then b else b + 1;
      assert r[a] == s[a'] && r[b] == s[b'];
    }
  }

  /** Replacing a row by one with the same key keeps the keys strictly increasing. */
  lemma ReplaceKeepsKeysIncreasing<T>(s: seq<T>, key: T -> int, i: int, x: T)
    requires KeysIncreasing(s, key) && 0 <= i < |s| && key(x) == key(s[i])
    ensures KeysIncreasing(s[i := x], key)
  {
  }

  /** With strictly increasing keys, removing row `i` removes exactly the rows with its key. */
  lemma RemoveDropsExactlyThatKey<T>(s: seq<T>, key: T -> int, i: int)
    requires KeysIncreasing(s, key) && 0 <= i < |s|
    ensures forall x :: x in s[..i] + s[i + 1..] <==> x in s && key(x) != key(s[i])
  {
    var r := s[..i] + s[i + 1..];
    forall x ensures x in r <==> x in s && key(x) != key(s[i]) {
      if x in s && key(x) != key(s[i]) {
        var j :| 0 <= j < |s| && s[j] == x;
        if j < i { assert r[j] == x; } else { assert j != i && r[j - 1] == x; }
      }
      if x in r {
        var j :| 0 <= j < |r| && r[j] == x;
        var k := if j < i then j else j + 1;
        assert s[k] == x && k != i;
      }
    }
  }

  /** LINQ `FirstOrDefault(p)` as a position: the first element satisfying `p`, if any. */
  function FindFirst<T>(s: seq<T>, p: T -> bool): (r: Option<nat>)
    ensures r.Some? ==> r.value < |s| && p(s[r.value])
    ensures r.Some? ==> forall j :: 0 <= j < r.value ==> !p(s[j])
    ensures r.None? <==> forall j :: 0 <= j < |s| ==> !p(s[j])
    decreases |s|
  {
    if |s| == 0 then None
    else if p(s[0]) then Some(0)
    else
      match FindFirst(s[1..], p)
      case None => None
      case Some(k) => Some(k + 1)
  }

  /** With strictly increasing keys, a key identifies at most one position. */
  lemma KeyIdentifiesPosition<T>(s: seq<T>, key: T -> int, i: int, j: int)
    requires KeysIncreasing(s, key)
    requires 0 <= i < |s| && 0 <= j < |s| && key(s[i]) == key(s[j])
    ensures i == j
  {
  }
}
