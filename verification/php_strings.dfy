/** The PHP string and array built-ins the core relies on, with the
    behaviour PHP 8 gives them: `trim`/`ltrim`/`rtrim`, `str_replace` with
    an empty replacement, `ucfirst`, `implode`, `strrchr`, `substr` with a
    negative offset and `array_unique`. */
module PhpStrings {
  import opened PhpValues

  /** The characters `trim`, `ltrim` and `rtrim` strip when no character
      list is given: space, tab, newline, carriage return, NUL and
      vertical tab. */
  const TrimSpace: set<char> := {' ', '\t', '\n', '\r', 0 as char, 11 as char}

  /** `ltrim($s, $cs)`: drops the longest prefix made of characters in `cs`. */
  function LTrim(s: string, cs: set<char>): string {
    if s != [] && s[0] in cs then LTrim(s[1..], cs) else s
  }

  /** `rtrim($s, $cs)`: drops the longest suffix made of characters in `cs`. */
  function RTrim(s: string, cs: set<char>): string {
    if s != [] && s[|s| - 1] in cs then RTrim(s[..|s| - 1], cs) else s
  }

  /** `trim($s)`: strips whitespace from both ends. */
  function Trim(s: string): string {
    LTrim(RTrim(s, TrimSpace), TrimSpace)
  }

  /** What `ltrim` leaves is a suffix of its argument that does not start
      with a stripped character, and everything cut off was a stripped
      character. */
  lemma {:induction false} LTrimSpec(s: string, cs: set<char>)
    ensures |LTrim(s, cs)| <= |s| && LTrim(s, cs) == s[|s| - |LTrim(s, cs)|..]
    ensures LTrim(s, cs) == [] || LTrim(s, cs)[0] !in cs
    ensures forall i :: 0 <= i < |s| - |LTrim(s, cs)| ==> s[i] in cs
  {
    if s != [] && s[0] in cs {
      LTrimSpec(s[1..], cs);
      forall i | 1 <= i < |s| - |LTrim(s, cs)| ensures s[i] in cs {
        assert s[i] == s[1..][i - 1];
      }
    }
  }

  /** What `rtrim` leaves is a prefix of its argument that does not end
      with a stripped character, and everything cut off was a stripped
      character. */
  lemma {:induction false} RTrimSpec(s: string, cs: set<char>)
    ensures |RTrim(s, cs)| <= |s| && RTrim(s, cs) == s[..|RTrim(s, cs)|]
    ensures RTrim(s, cs) == [] || RTrim(s, cs)[|RTrim(s, cs)| - 1] !in cs
    ensures forall i :: |RTrim(s, cs)| <= i < |s| ==> s[i] in cs
  {
    if s != [] && s[|s| - 1] in cs {
      RTrimSpec(s[..|s| - 1], cs);
      forall i | |RTrim(s, cs)| <= i < |s| - 1 ensures s[i] in cs {
        assert s[i] == s[..|s| - 1][i];
      }
    }
  }

  /** `trim` returns a slice of its argument that neither starts nor ends
      with whitespace. */
  lemma TrimSpec(s: string)
    ensures exists a, b :: 0 <= a <= b <= |s| && Trim(s) == s[a..b]
    ensures Trim(s) == [] || (Trim(s)[0] !in TrimSpace && Trim(s)[|Trim(s)| - 1] !in TrimSpace)
  {
    var t := RTrim(s, TrimSpace);
    RTrimSpec(s, TrimSpace);
    LTrimSpec(t, TrimSpace);
    var r := LTrim(t, TrimSpace);
    assert r == s[|t| - |r|..|t|];
  }

  /** A string that neither starts nor ends with whitespace is left
      unchanged by `trim`. */
  lemma TrimUnchanged(s: string)
    requires s == [] || (s[0] !in TrimSpace && s[|s| - 1] !in TrimSpace)
    ensures Trim(s) == s
  {
  }

  /** A string that does not start with whitespace keeps its first
      character under `trim`. */
  lemma TrimKeepsFirst(s: string)
    requires s != [] && s[0] !in TrimSpace
    ensures Trim(s) != [] && Trim(s)[0] == s[0]
  {
    var t := RTrim(s, TrimSpace);
    RTrimSpec(s, TrimSpace);
    assert t[0] == s[0];
  }

  /** `ltrim` only looks at the front: once a kept character is reached,
      whatever follows is carried over as it is. */
  lemma {:induction false} LTrimAppend(s: string, t: string, cs: set<char>)
    requires LTrim(s, cs) != []
    ensures LTrim(s + t, cs) == LTrim(s, cs) + t
  {
    if s[0] in cs {
      calc {
        LTrim(s + t, cs);
        { assert (s + t)[0] == s[0]; }
        LTrim((s + t)[1..], cs);
        { assert (s + t)[1..] == s[1..] + t; }
        LTrim(s[1..] + t, cs);
        { LTrimAppend(s[1..], t, cs); }
        LTrim(s[1..], cs) + t;
      }
    } else {
      assert (s + t)[0] == s[0];
    }
  }

  /** `rtrim` only looks at the back. */
  lemma {:induction false} RTrimPrepend(t: string, s: string, cs: set<char>)
    requires RTrim(s, cs) != []
    ensures RTrim(t + s, cs) == t + RTrim(s, cs)
  {
    if s[|s| - 1] in cs {
      assert (t + s)[..|t + s| - 1] == t + s[..|s| - 1];
      RTrimPrepend(t, s[..|s| - 1], cs);
    }
  }

  /** Whether `pat` occurs in `s` at position `i`. */
  predicate OccursAt(s: string, pat: string, i: nat) {
    i + |pat| <= |s| && s[i..i + |pat|] == pat
  }

  /** `str_replace($pat, '', $s)`: removes every occurrence of `pat`,
      scanning left to right without overlaps. */
  function RemoveAll(s: string, pat: string): (r: string)
    requires pat != []
    ensures |r| <= |s|
    decreases |s|
  {
    if |s| < |pat| then s
    else if s[..|pat|] == pat then RemoveAll(s[|pat|..], pat)
    else [s[0]] + RemoveAll(s[1..], pat)
  }

  /** Removing every `c` keeps exactly the other characters, none of
      them `c`, and changes nothing in a string without `c`. */
  lemma {:induction false} RemoveCharSpec(s: string, c: char)
    ensures c !in RemoveAll(s, [c])
    ensures forall x :: x in RemoveAll(s, [c]) <==> x in s && x != c
    ensures c !in s ==> RemoveAll(s, [c]) == s
  {
    if |s| >= 1 {
      RemoveCharSpec(s[1..], c);
      assert s == [s[0]] + s[1..];
    }
  }

  /** A string in which `pat` does not occur is left unchanged. */
  lemma {:induction false} RemoveAllAbsent(s: string, pat: string)
    requires pat != []
    requires forall i: nat :: !OccursAt(s, pat, i)
    ensures RemoveAll(s, pat) == s
  {
    if |s| >= |pat| {
      assert !OccursAt(s, pat, 0);
      forall i: nat ensures !OccursAt(s[1..], pat, i) {
        assert !OccursAt(s, pat, i + 1);
      }
      RemoveAllAbsent(s[1..], pat);
    }
  }

  /** Removing `.php` from a file name `t.php` gives back `t` when `t`
      itself contains no `.php`: the suffix cannot combine with the end of
      `t` into an earlier match, since `.` does not occur in `php`. */
  lemma {:induction false} RemovePhpSuffix(t: string)
    requires forall i: nat :: !OccursAt(t, ".php", i)
    ensures RemoveAll(t + ".php", ".php") == t
  {
    var s := t + ".php";
    if t == [] {
      assert s[4..] == [];
    } else {
      if |t| >= 4 {
        assert t[..4] == s[..4];
        assert !OccursAt(t, ".php", 0);
      } else {
        assert s[..4][|t|] == '.';
      }
      assert s[..4] != ".php";
      forall i: nat ensures !OccursAt(t[1..], ".php", i) {
        assert !OccursAt(t, ".php", i + 1);
      }
      RemovePhpSuffix(t[1..]);
      assert s[1..] == t[1..] + ".php";
    }
  }

  /** ASCII upper-casing of one character, as PHP 8's `ucfirst` does. */
  function UpperAscii(c: char): char {
    if 'a' <= c <= 'z' then (c as int - 32) as char else c
  }

  /** `ucfirst($s)`. */
  function Ucfirst(s: string): (r: string)
    ensures |r| == |s|
    ensures s != [] ==> r[1..] == s[1..] && r[0] == UpperAscii(s[0])
    ensures s != [] && 'a' <= s[0] <= 'z' ==> 'A' <= r[0] <= 'Z' && r[0] as int + 32 == s[0] as int
    ensures s != [] && !('a' <= s[0] <= 'z') ==> r == s
  {
    if s == [] then [] else [UpperAscii(s[0])] + s[1..]
  }

  /** Strings starting with a lower-case letter stay distinct under
      `ucfirst`. */
  lemma UcfirstLowerInjective(s1: string, s2: string)
    requires s1 != [] && 'a' <= s1[0] <= 'z'
    requires s2 != [] && 'a' <= s2[0] <= 'z'
    requires Ucfirst(s1) == Ucfirst(s2)
    ensures s1 == s2
  {
    assert s1[0] == s2[0] by {
      assert Ucfirst(s1)[0] == Ucfirst(s2)[0];
    }
    assert s1[1..] == s2[1..] by {
      assert Ucfirst(s1)[1..] == Ucfirst(s2)[1..];
    }
    assert s1 == [s1[0]] + s1[1..];
    assert s2 == [s2[0]] + s2[1..];
  }

  /** `implode($sep, $xs)`. */
  function Implode(sep: string, xs: seq<string>): string
    decreases |xs|
  {
    if xs == [] then ""
    else if |xs| == 1 then xs[0]
    else xs[0] + sep + Implode(sep, xs[1..])
  }

  /** Appending one more piece adds one separator and that piece. */
  lemma {:induction false} ImplodeAppend(sep: string, xs: seq<string>, x: string)
    ensures Implode(sep, xs + [x]) == if xs == [] then x else Implode(sep, xs) + sep + x
    decreases |xs|
  {
    if |xs| >= 2 {
      assert (xs + [x])[1..] == xs[1..] + [x];
      ImplodeAppend(sep, xs[1..], x);
    } else if |xs| == 1 {
      assert (xs + [x])[1..] == [x];
    }
  }

  /** The index of the first `c` in `s`, or `|s|` when there is none. */
  function IndexOf(s: string, c: char): (i: nat)
    ensures i <= |s|
    ensures i < |s| ==> s[i] == c
    ensures forall j :: 0 <= j < i ==> s[j] != c
  {
    if s == [] then 0 else if s[0] == c then 0 else 1 + IndexOf(s[1..], c)
  }

  /** Reads back a list rendered by `implode(', ', ...)` whose pieces are
      non-empty and contain no comma. */
  function SplitList(s: string): seq<string>
    decreases |s|
  {
    if s == [] then []
    else
      var i := IndexOf(s, ',');
      if i == |s| then [s]
      else [s[..i]] + SplitList(s[if i + 2 <= |s| then i + 2 else |s|..])
  }

  /** Implode with `', '` loses nothing: the pieces can be read back, in
      order, when none is empty and none contains a comma. */
  lemma {:induction false} SplitImplode(xs: seq<string>)
    requires forall k :: 0 <= k < |xs| ==> xs[k] != [] && ',' !in xs[k]
    ensures SplitList(Implode(", ", xs)) == xs
    decreases |xs|
  {
    if |xs| == 1 {
      assert IndexOf(xs[0], ',') == |xs[0]|;
    } else if |xs| >= 2 {
      var s := Implode(", ", xs);
      var rest := Implode(", ", xs[1..]);
      assert s == xs[0] + ", " + rest;
      assert IndexOf(s, ',') == |xs[0]| by {
        assert s[|xs[0]|] == ',';
        forall j | 0 <= j < |xs[0]| ensures s[j] != ',' {
          assert s[j] == xs[0][j];
        }
      }
      assert s[..|xs[0]|] == xs[0];
      assert s[|xs[0]| + 2..] == rest;
      SplitImplode(xs[1..]);
    }
  }

  /** `strrchr($s, $c)`: the part of `s` from the last `c` on, or `false`
      (here `None`) when `c` does not occur. */
  function Strrchr(s: string, c: char): (r: Option<string>)
    ensures r.None? <==> c !in s
    ensures r.Some? ==> |r.value| >= 1 && r.value[0] == c && c !in r.value[1..]
    ensures r.Some? ==> |r.value| <= |s| && r.value == s[|s| - |r.value|..]
  {
    if s == [] then None
    else match Strrchr(s[1..], c)
      case Some(t) => Some(t)
      case None => if s[0] == c then Some(s) else None
  }

  /** The last `c` of `s + [c] + t`, where `t` has no `c`, is the one
      before `t`. */
  lemma StrrchrLast(s: string, c: char, t: string)
    requires c !in t
    ensures Strrchr(s + [c] + t, c) == Some([c] + t)
  {
    var u := s + [c] + t;
    assert u[|s|] == c;
    var r := Strrchr(u, c);
    assert r.Some?;
    var v := r.value;
    assert v == u[|u| - |v|..] == [c] + t;
  }

  /** `ltrim` of one leading `c` before a string without `c`. */
  lemma LTrimOne(c: char, t: string)
    requires c !in t
    ensures LTrim([c] + t, {c}) == t
  {
    assert ([c] + t)[1..] == t;
    assert t == [] || t[0] != c;
  }

  /** `substr($s, -n)` for `n > 0`: the last `n` characters, or all of `s`
      when it is shorter. */
  function SubstrLast(s: string, n: nat): (r: string)
    ensures |r| == if |s| <= n then |s| else n
    ensures r == s[|s| - |r|..]
  {
    if |s| <= n then s else s[|s| - n..]
  }

  /** Whether `s` ends with `suffix`. */
  predicate EndsWith(s: string, suffix: string) {
    |suffix| <= |s| && s[|s| - |suffix|..] == suffix
  }

  /** Comparing `substr($s, -|suffix|)` with `suffix` tests for the suffix. */
  lemma SubstrLastEndsWith(s: string, suffix: string)
    requires suffix != []
    ensures (SubstrLast(s, |suffix|) == suffix) <==> EndsWith(s, suffix)
  {
  }

  /** No element occurs twice. */
  predicate Distinct<T(==)>(xs: seq<T>) {
    forall i, j :: 0 <= i < j < |xs| ==> xs[i] != xs[j]
  }

  /** The position of the first occurrence of `x`. */
  function FirstIndex<T(==)>(xs: seq<T>, x: T): (i: nat)
    requires x in xs
    ensures i < |xs| && xs[i] == x && x !in xs[..i]
  {
    if xs[0] == x then 0 else 1 + FirstIndex(xs[1..], x)
  }

  /** `array_values(array_unique($xs))`: the distinct elements, each at the
      place of its first occurrence. */
  function ArrayUnique(xs: seq<string>): (r: seq<string>)
    ensures forall x :: x in r <==> x in xs
    ensures Distinct(r)
    decreases |xs|
  {
    if xs == [] then []
    else
      var r := ArrayUnique(xs[..|xs| - 1]);
      var last := xs[|xs| - 1];
      assert forall x :: x in xs <==> x in xs[..|xs| - 1] || x == last;
      if last in r then r else r + [last]
  }

  /** Any position of `x` with no `x` before it is the first occurrence. */
  lemma {:induction false} FirstIndexUnique<T>(xs: seq<T>, x: T, i: nat)
    requires i < |xs| && xs[i] == x && x !in xs[..i]
    ensures FirstIndex(xs, x) == i
  {
    if i > 0 {
      assert xs[..i][0] == xs[0];
      assert xs[1..][..i - 1] == xs[1..i];
      assert forall y :: y in xs[1..i] ==> y in xs[..i];
      FirstIndexUnique(xs[1..], x, i - 1);
    }
  }

  /** The first occurrence of `x` in a prefix is its first occurrence in
      the whole sequence. */
  lemma FirstIndexPrefix<T>(xs: seq<T>, n: nat, x: T)
    requires n <= |xs| && x in xs[..n]
    ensures FirstIndex(xs[..n], x) == FirstIndex(xs, x)
  {
    var i := FirstIndex(xs[..n], x);
    assert xs[..n][..i] == xs[..i];
    FirstIndexUnique(xs, x, i);
  }

  /** `array_unique` keeps elements in the order of their first
      occurrence. */
  lemma {:induction false} ArrayUniqueOrder(xs: seq<string>)
    ensures forall i, j :: 0 <= i < j < |ArrayUnique(xs)| ==>
      FirstIndex(xs, ArrayUnique(xs)[i]) < FirstIndex(xs, ArrayUnique(xs)[j])
    decreases |xs|
  {
    if xs != [] {
      var init := xs[..|xs| - 1];
      var last := xs[|xs| - 1];
      ArrayUniqueOrder(init);
      var r0 := ArrayUnique(init);
      var r := ArrayUnique(xs);
      forall x | x in init ensures FirstIndex(xs, x) == FirstIndex(init, x) {
        FirstIndexPrefix(xs, |xs| - 1, x);
      }
      if last !in r0 {
        assert last !in init;
        assert FirstIndex(xs, last) == |xs| - 1;
        assert r == r0 + [last];
        forall i, j | 0 <= i < j < |r| ensures FirstIndex(xs, r[i]) < FirstIndex(xs, r[j]) {
          assert r[i] == r0[i] && r[i] in init;
          if j < |r0| {
            assert r[j] == r0[j];
          }
        }
      }
    }
  }

  /** A sequence without repeats is left unchanged by `array_unique`. */
  lemma {:induction false} ArrayUniqueDistinct(xs: seq<string>)
    requires Distinct(xs)
    ensures ArrayUnique(xs) == xs
    decreases |xs|
  {
    if xs != [] {
      var init := xs[..|xs| - 1];
      ArrayUniqueDistinct(init);
      assert xs[|xs| - 1] !in init;
      assert xs == init + [xs[|xs| - 1]];
    }
  }
}
