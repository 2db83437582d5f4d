/** Shared vocabulary: optional values, results, opaque payloads and the string
    operations of the .NET base library that the modelled code relies on. */
module Common {

  /** A nullable value: `None` stands for C#'s `null`. */
  datatype Option<+T> = None | Some(value: T) {
    /** C#'s `x ?? fallback`. */
    function GetOr(fallback: T): T {
      match this
      case Some(v) => v
      case None => fallback
    }

    /** C#'s `x ?? y` where `y` is nullable too. */
    function OrElse(other: Option<T>): Option<T> {
      if Some? then this else other
    }
  }

  /** A value, or the exception that computing it threw. */
  datatype Result<+T, +E> = Ok(value: T) | Err(error: E)

  /** A reference-typed payload that the modelled code only carries from one
      object to another (tools, tool choice, vendor extensions, ...). Two blobs
      are the same payload exactly when they are equal. */
  datatype Blob = Blob(id: nat)

  /** The non-null items of a sequence, in order (a loop that `continue`s past
      nulls). */
  function Present<T>(items: seq<Option<T>>): (r: seq<T>)
    ensures |r| <= |items|
  {
    if items == [] then []
    else if items[|items| - 1].Some? then Present(items[..|items| - 1]) + [items[|items| - 1].value]
    else Present(items[..|items| - 1])
  }

  /** Filtering distributes over concatenation: items are skipped and kept
      independently of what surrounds them. */
  lemma {:induction false} PresentAppend<T>(a: seq<Option<T>>, b: seq<Option<T>>)
    ensures Present(a + b) == Present(a) + Present(b)
    decreases |b|
  {
    if b == [] {
      assert a + b == a;
    } else {
      var b' := b[..|b| - 1];
      assert (a + b)[..|a + b| - 1] == a + b';
      PresentAppend(a, b');
    }
  }

  /** Exactly the non-null items survive the filter. */
  lemma {:induction false} PresentMembers<T>(items: seq<Option<T>>, x: T)
    ensures x in Present(items) <==> Some(x) in items
    decreases |items|
  {
    if items != [] {
      var init := items[..|items| - 1];
      PresentMembers(init, x);
      assert items == init + [items[|items| - 1]];
    }
  }

  /** .NET's `Char.IsWhiteSpace`: the Unicode space, line and paragraph
      separators, the controls U+0009 to U+000D, U+0085 and U+00A0. */
  predicate IsWhiteSpace(c: char) {
    c == ' ' || ('\t' <= c <= '\r') || c == '\U{85}' || c == '\U{A0}' || c == '\U{1680}'
    || ('\U{2000}' <= c <= '\U{200A}') || c == '\U{2028}' || c == '\U{2029}'
    || c == '\U{202F}' || c == '\U{205F}' || c == '\U{3000}'
  }

  /** .NET's `string.IsNullOrWhiteSpace`. */
  predicate IsNullOrWhiteSpace(s: Option<string>) {
    match s
    case None => true
    case Some(t) => forall i | 0 <= i < |t| :: IsWhiteSpace(t[i])
  }

  /** `key` occurs in `t` starting at position `a`. */
  predicate OccursAt(t: string, key: string, a: int) {
    0 <= a && a + |key| <= |t| && t[a..a + |key|] == key
  }

  /** `key` occurs nowhere in `t`. */
  predicate Absent(t: string, key: string) {
    forall a | 0 <= a <= |t| :: !OccursAt(t, key, a)
  }

  /** .NET's ordinal `string.Replace(oldValue, newValue)`: every occurrence of
      `oldValue`, found left to right without overlap, is replaced. .NET throws
      `ArgumentException` for an empty `oldValue`; callers model that case. */
  function ReplaceAll(s: string, oldValue: string, newValue: string): (r: string)
    requires oldValue != []
    decreases |s|
  {
    if |s| < |oldValue| then s
    else if s[..|oldValue|] == oldValue then newValue + ReplaceAll(s[|oldValue|..], oldValue, newValue)
    else [s[0]] + ReplaceAll(s[1..], oldValue, newValue)
  }

  /** Replacing a string that does not occur changes nothing. */
  lemma {:induction false} ReplaceAllAbsent(s: string, oldValue: string, newValue: string)
    requires oldValue != []
    requires Absent(s, oldValue)
    ensures ReplaceAll(s, oldValue, newValue) == s
    decreases |s|
  {
    if |s| >= |oldValue| {
      assert !OccursAt(s, oldValue, 0);
      forall a ensures !OccursAt(s[1..], oldValue, a) {
        if OccursAt(s[1..], oldValue, a) {
          assert s[a + 1..a + 1 + |oldValue|] == s[1..][a..a + |oldValue|];
          assert OccursAt(s, oldValue, a + 1);
        }
      }
      ReplaceAllAbsent(s[1..], oldValue, newValue);
      assert [s[0]] + s[1..] == s;
    }
  }

  /** While no replacement marker has been emitted, the output copies the input:
      a prefix of the result free of the marker's first character is a prefix of
      the input. */
  lemma {:induction false} ReplaceAllUntouchedPrefix(s: string, oldValue: string, newValue: string, n: nat)
    requires oldValue != [] && newValue != []
    requires n <= |ReplaceAll(s, oldValue, newValue)|
    ensures (forall i | 0 <= i < n :: ReplaceAll(s, oldValue, newValue)[i] != newValue[0]) ==>
              n <= |s| && ReplaceAll(s, oldValue, newValue)[..n] == s[..n]
    decreases |s|
  {
    var r := ReplaceAll(s, oldValue, newValue);
    if n == 0 || |s| < |oldValue| {
    } else if s[..|oldValue|] == oldValue {
      assert r[0] == newValue[0];
    } else {
      var rest := ReplaceAll(s[1..], oldValue, newValue);
      assert r == [s[0]] + rest;
      ReplaceAllUntouchedPrefix(s[1..], oldValue, newValue, n - 1);
      if forall i | 0 <= i < n :: r[i] != newValue[0] {
        forall i | 0 <= i < n - 1 ensures rest[i] != newValue[0] {
          assert rest[i] == r[i + 1];
        }
        assert r[..n] == [s[0]] + rest[..n - 1];
        assert s[..n] == [s[0]] + s[1..][..n - 1];
      }
    }
  }

  /** A suffix of a string without `key` is without `key`. */
  lemma AbsentSuffix(s: string, d: nat, key: string)
    requires d <= |s| && Absent(s, key)
    ensures Absent(s[d..], key)
  {
    forall a | 0 <= a <= |s[d..]| ensures !OccursAt(s[d..], key, a) {
      if a + |key| <= |s[d..]| {
        assert s[a + d..a + d + |key|] == s[d..][a..a + |key|];
        assert !OccursAt(s, key, a + d);
      }
    }
  }

  /** A bracketed marker followed by text without `key` contains no `key`,
      when `key` has no bracket and is not inside the marker. */
  lemma MarkerThenAbsent(marker: string, rest: string, key: string)
    requires key != [] && |marker| >= 1 && marker[|marker| - 1] == ']'
    requires ']' !in key
    requires Absent(marker, key) && Absent(rest, key)
    ensures Absent(marker + rest, key)
  {
    var r := marker + rest;
    forall a | 0 <= a <= |r| ensures !OccursAt(r, key, a) {
      if a + |key| > |r| {
      } else if a + |key| <= |marker| {
        assert marker[a..a + |key|] == r[a..a + |key|];
        assert !OccursAt(marker, key, a);
      } else if a >= |marker| {
        assert rest[a - |marker|..a - |marker| + |key|] == r[a..a + |key|];
        assert !OccursAt(rest, key, a - |marker|);
      } else {
        var m := |marker| - 1;
        assert r[a..a + |key|][m - a] == ']';
        assert ']' in r[a..a + |key|];
      }
    }
  }

  /** When the input does not start with `oldValue`, the output does not start
      with a bracket-free `key` that the input does not start with. */
  lemma CopiedHeadNotKey(s: string, oldValue: string, newValue: string, key: string)
    requires oldValue != [] && key != [] && newValue != [] && newValue[0] == '['
    requires |s| >= |oldValue| && s[..|oldValue|] != oldValue
    requires '[' !in key
    requires key == oldValue || !OccursAt(s, key, 0)
    ensures !OccursAt(ReplaceAll(s, oldValue, newValue), key, 0)
  {
    var r := ReplaceAll(s, oldValue, newValue);
    if |key| <= |r| {
      ReplaceAllUntouchedPrefix(s, oldValue, newValue, |key|);
      if forall i | 0 <= i < |key| :: r[i] != newValue[0] {
        assert r[0..|key|] == s[..|key|];
      } else {
        var i :| 0 <= i < |key| && r[i] == newValue[0];
        assert r[0..|key|][i] == '[';
      }
    }
  }

  /** A string that does not start with `key` and whose tail has no `key` has no `key`. */
  lemma HeadThenAbsent(r: string, key: string)
    requires |r| >= 1 && !OccursAt(r, key, 0) && Absent(r[1..], key)
    ensures Absent(r, key)
  {
    forall a | 1 <= a <= |r| ensures !OccursAt(r, key, a) {
      if a + |key| <= |r| {
        assert r[1..][a - 1..a - 1 + |key|] == r[a..a + |key|];
        assert !OccursAt(r[1..], key, a - 1);
      }
    }
  }

  /** Replacing `oldValue` by a bracketed marker cannot create an occurrence of
      a bracket-free `key` that the marker does not contain, and removes every
      occurrence of `key` itself when `key` is what is being replaced. */
  lemma {:induction false} ReplaceAllKeepsAbsent(s: string, oldValue: string, newValue: string, key: string)
    requires oldValue != [] && key != []
    requires |newValue| >= 2 && newValue[0] == '[' && newValue[|newValue| - 1] == ']'
    requires '[' !in key && ']' !in key
    requires Absent(newValue, key)
    requires key == oldValue || Absent(s, key)
    ensures Absent(ReplaceAll(s, oldValue, newValue), key)
    decreases |s|
  {
    if |s| < |oldValue| {
    } else if s[..|oldValue|] == oldValue {
      var tail := s[|oldValue|..];
      if key != oldValue {
        AbsentSuffix(s, |oldValue|, key);
      }
      ReplaceAllKeepsAbsent(tail, oldValue, newValue, key);
      MarkerThenAbsent(newValue, ReplaceAll(tail, oldValue, newValue), key);
    } else {
      if key != oldValue {
        AbsentSuffix(s, 1, key);
      }
      ReplaceAllKeepsAbsent(s[1..], oldValue, newValue, key);
      var r := ReplaceAll(s, oldValue, newValue);
      assert r[1..] == ReplaceAll(s[1..], oldValue, newValue);
      CopiedHeadNotKey(s, oldValue, newValue, key);
      HeadThenAbsent(r, key);
    }
  }
}
