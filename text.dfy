/** String and array helpers that stand for the JavaScript built-ins the
    scoring and formatting code relies on: `String.prototype.trim`,
    `Array.prototype.join`, `filter(Boolean)`, `toLowerCase`, `map`, and a `Set`
    of strings read back with `Array.from` (insertion-ordered, duplicates
    ignored). */
module Text {

  // ---------------------------------------------------------------- trim

  /** The characters `String.prototype.trim` removes: ECMAScript WhiteSpace
      (tab, vertical tab, form feed, space, no-break space, byte order mark and
      the Unicode space separators) and LineTerminator. */
  predicate IsWhitespace(c: char) {
    || c == '\t' || c == '\n' || c == '\U{000B}' || c == '\U{000C}' || c == '\r'
    || c == ' ' || c == '\U{00A0}' || c == '\U{1680}'
    || ('\U{2000}' <= c <= '\U{200A}')
    || c == '\U{2028}' || c == '\U{2029}' || c == '\U{202F}' || c == '\U{205F}'
    || c == '\U{3000}' || c == '\U{FEFF}'
  }

  ghost predicate AllWhitespace(s: string) {
    forall i :: 0 <= i < |s| ==> IsWhitespace(s[i])
  }

  /** Drops leading whitespace: the result is a suffix of `s` that does not
      start with whitespace, and everything dropped was whitespace. */
  function TrimStart(s: string): (r: string)
    ensures |r| <= |s| && r == s[|s| - |r|..]
    ensures AllWhitespace(s[..|s| - |r|])
    ensures r == [] || !IsWhitespace(r[0])
  {
    if |s| > 0 && IsWhitespace(s[0]) then
      var r := TrimStart(s[1..]);
      assert s[1..][..|s| - 1 - |r|] == s[1..|s| - |r|];
      r
    else s
  }

  /** Drops trailing whitespace: the result is a prefix of `s` that does not
      end with whitespace, and everything dropped was whitespace. */
  function TrimEnd(s: string): (r: string)
    ensures |r| <= |s| && r == s[..|r|]
    ensures AllWhitespace(s[|r|..])
    ensures r == [] || !IsWhitespace(r[|r| - 1])
  {
    if |s| > 0 && IsWhitespace(s[|s| - 1]) then
      var r := TrimEnd(s[..|s| - 1]);
      assert s[..|s| - 1][|r|..] == s[|r|..|s| - 1];
      r
    else s
  }

  /** `s.trim()`: the contiguous middle part of `s` left once whitespace is
      removed from both ends. */
  function Trim(s: string): (r: string)
    ensures exists i, j ::
      (0 <= i <= j <= |s| && r == s[i..j] && AllWhitespace(s[..i]) && AllWhitespace(s[j..]))
    ensures r == [] || (!IsWhitespace(r[0]) && !IsWhitespace(r[|r| - 1]))
  {
    var t := TrimStart(s);
    var r := TrimEnd(t);
    TrimMiddle(s, t, r);
    r
  }

  /** Whitespace dropped from the front of `s` (leaving `t`) and then from the
      back of `t` (leaving `r`) leaves a middle slice of `s`. */
  lemma TrimMiddle(s: string, t: string, r: string)
    requires |t| <= |s| && t == s[|s| - |t|..] && AllWhitespace(s[..|s| - |t|])
    requires t == [] || !IsWhitespace(t[0])
    requires |r| <= |t| && r == t[..|r|] && AllWhitespace(t[|r|..])
    requires r == [] || !IsWhitespace(r[|r| - 1])
    ensures exists i, j ::
      (0 <= i <= j <= |s| && r == s[i..j] && AllWhitespace(s[..i]) && AllWhitespace(s[j..]))
    ensures r == [] || (!IsWhitespace(r[0]) && !IsWhitespace(r[|r| - 1]))
  {
    var i := |s| - |t|;
    assert r == s[i..i + |r|];
    assert s[i + |r|..] == t[|r|..];
  }

  /** A string trims to nothing exactly when it is made of whitespace only. */
  lemma {:induction false} TrimEmptyIffWhitespace(s: string)
    ensures Trim(s) == [] <==> AllWhitespace(s)
  {
  }

  /** Trimming twice is trimming once. */
  lemma TrimIdempotent(s: string)
    ensures Trim(Trim(s)) == Trim(s)
  {
    var t := Trim(s);
    if t != [] {
      assert TrimStart(t) == t;
      assert TrimEnd(t) == t;
    }
  }

  /** A string that neither starts nor ends with whitespace is its own
      trim. */
  lemma TrimUnpadded(s: string)
    requires |s| > 0 && !IsWhitespace(s[0]) && !IsWhitespace(s[|s| - 1])
    ensures Trim(s) == s
  {
    assert TrimStart(s) == s;
    assert TrimEnd(s) == s;
  }

  // ---------------------------------------------------------------- join

  /** `parts.join(sep)`: the empty array joins to the empty string, a single
      element to itself. */
  function Join(parts: seq<string>, sep: string): (r: string)
    ensures |parts| == 1 ==> r == parts[0]
    ensures |parts| > 0 ==> IsPrefix(parts[0], r)
  {
    if |parts| == 0 then ""
    else if |parts| == 1 then parts[0]
    else parts[0] + sep + Join(parts[1..], sep)
  }

  predicate IsPrefix(p: string, s: string) {
    |p| <= |s| && s[..|p|] == p
  }

  predicate IsSuffix(p: string, s: string) {
    |p| <= |s| && s[|s| - |p|..] == p
  }

  /** Joining a concatenation of two non-empty arrays puts one separator
      between the two joined halves. */
  lemma {:induction false} JoinAppend(a: seq<string>, b: seq<string>, sep: string)
    requires |a| > 0 && |b| > 0
    ensures Join(a + b, sep) == Join(a, sep) + sep + Join(b, sep)
  {
    if |a| == 1 {
      assert (a + b)[1..] == b;
    } else {
      assert (a + b)[1..] == a[1..] + b;
      JoinAppend(a[1..], b, sep);
    }
  }

  /** The first element, then the separator and the rest joined. */
  lemma JoinFirst(parts: seq<string>, sep: string)
    requires |parts| > 1
    ensures Join(parts, sep) == parts[0] + (sep + Join(parts[1..], sep))
  {
    var rest := Join(parts[1..], sep);
    assert parts[0] + sep + rest == parts[0] + (sep + rest);
  }

  /** A last element joined on shows as the separator and that element at
      the end of the joined string. */
  lemma JoinSnoc(parts: seq<string>, last: string, sep: string)
    requires |parts| > 0
    ensures Join(parts + [last], sep) == Join(parts, sep) + sep + last
    ensures IsSuffix(sep + last, Join(parts + [last], sep))
  {
    JoinAppend(parts, [last], sep);
    var j := Join(parts, sep);
    assert (j + sep + last)[|j|..] == sep + last;
  }

  /** Joining a list that ends in `tail` puts the last of the other
      elements, a separator and the joined tail at the end. */
  lemma JoinSuffix(parts: seq<string>, tail: seq<string>, sep: string)
    requires |parts| > 0 && |tail| > 0
    ensures IsSuffix(parts[|parts| - 1] + sep + Join(tail, sep), Join(parts + tail, sep))
  {
    JoinAppend(parts, tail, sep);
    JoinEndsWithLast(parts, sep);
    var j, last, t := Join(parts, sep), parts[|parts| - 1], Join(tail, sep);
    assert (j + sep + t)[|j| - |last|..] == j[|j| - |last|..] + sep + t;
  }

  lemma {:induction false} JoinEndsWithLast(parts: seq<string>, sep: string)
    requires |parts| > 0
    ensures IsSuffix(parts[|parts| - 1], Join(parts, sep))
  {
    if |parts| > 1 {
      JoinEndsWithLast(parts[1..], sep);
    }
  }

  // ------------------------------------------------------- filter(Boolean)

  /** `xs.filter(Boolean)` over strings: drops every empty string and keeps
      the rest in order. */
  function DropEmpty(xs: seq<string>): (r: seq<string>)
    ensures |r| <= |xs|
    ensures forall x :: x in r <==> x in xs && x != ""
  {
    if |xs| == 0 then []
    else if xs[0] == "" then DropEmpty(xs[1..])
    else [xs[0]] + DropEmpty(xs[1..])
  }

  lemma {:induction false} DropEmptyAppend(a: seq<string>, b: seq<string>)
    ensures DropEmpty(a + b) == DropEmpty(a) + DropEmpty(b)
  {
    if |a| > 0 {
      assert (a + b)[1..] == a[1..] + b;
      DropEmptyAppend(a[1..], b);
    } else {
      assert a + b == b;
    }
  }

  /** A list without empty strings passes through unchanged. */
  lemma {:induction false} DropEmptyKeepsNonEmpty(xs: seq<string>)
    requires forall i :: 0 <= i < |xs| ==> xs[i] != ""
    ensures DropEmpty(xs) == xs
  {
    if |xs| > 0 {
      DropEmptyKeepsNonEmpty(xs[1..]);
    }
  }

  /** A line when it is not empty, and nothing otherwise. */
  function Present(line: string): seq<string> {
    if line == "" then [] else [line]
  }

  /** Filtering a list whose first and last runs hold no empty string
      filters only the middle run and the final element. */
  lemma DropEmptyAround(head: seq<string>, middle: seq<string>, tail: seq<string>, last: string)
    requires forall i :: 0 <= i < |head| ==> |head[i]| > 0
    requires forall i :: 0 <= i < |tail| ==> |tail[i]| > 0
    ensures DropEmpty(head + middle + tail + [last]) == head + DropEmpty(middle) + tail + Present(last)
  {
    DropEmptyAppend(head + middle + tail, [last]);
    DropEmptyAppend(head + middle, tail);
    DropEmptyAppend(head, middle);
    DropEmptyKeepsNonEmpty(head);
    DropEmptyKeepsNonEmpty(tail);
    assert DropEmpty([last]) == Present(last) by {
      assert [last][1..] == [];
    }
  }

  /** Two fixed lines, two optional ones, three fixed lines and a last one:
      the filter keeps the fixed lines and the optional ones that are not
      empty. */
  lemma DropEmptyRuns(a: string, b: string, f: string, c: string, t: string, s: string, d: string, p: string)
    requires |a| > 0 && |b| > 0 && |t| > 0 && |s| > 0 && |d| > 0
    ensures DropEmpty([a, b] + [f, c] + [t, s, d] + [p])
      == [a, b] + (Present(f) + Present(c)) + [t, s, d] + Present(p)
  {
    DropEmptyAround([a, b], [f, c], [t, s, d], p);
    DropEmptyPair(f, c);
  }

  lemma DropEmptyPair(x: string, y: string)
    ensures DropEmpty([x, y]) == Present(x) + Present(y)
  {
    assert [x, y][1..] == [y];
    assert [y][1..] == [];
  }

  // -------------------------------------------------------- toLowerCase

  function LowerChar(c: char): char {
    if 'A' <= c <= 'Z' then (c as int + 32) as char else c
  }

  /** `s.toLowerCase()` for ASCII text (every title it is applied to is
      ASCII). */
  function ToLower(s: string): (r: string)
    ensures |r| == |s|
    ensures forall i :: 0 <= i < |s| ==> r[i] == LowerChar(s[i])
  {
    if |s| == 0 then "" else [LowerChar(s[0])] + ToLower(s[1..])
  }

  // ------------------------------------------ insertion-ordered string sets

  predicate NoDuplicates<T(==)>(s: seq<T>) {
    forall i, j :: 0 <= i < j < |s| ==> s[i] != s[j]
  }

  /** `set.add(x)` on an insertion-ordered set: a new element goes to the
      end, an element already present leaves the set as it was. */
  function Add<T(==)>(s: seq<T>, x: T): (r: seq<T>)
    ensures r == s || r == s + [x]
    ensures x in r
    ensures NoDuplicates(s) ==> NoDuplicates(r)
  {
    if x in s then s else s + [x]
  }

  /** `if (cond) set.add(x)`. */
  function AddIf<T(==)>(s: seq<T>, cond: bool, x: T): seq<T> {
    if cond then Add(s, x) else s
  }

  /** One conditional `add` of a sequence of them: the entry, and whether
      its condition holds. */
  datatype Rule<T> = Rule(fires: bool, entry: T)

  /** The set filled by starting empty and applying the first `k` rules in
      order. */
  function Collect<T(==)>(rules: seq<Rule<T>>, k: nat): seq<T>
    requires k <= |rules|
  {
    if k == 0 then [] else AddIf(Collect(rules, k - 1), rules[k - 1].fires, rules[k - 1].entry)
  }

  /** An entry is in the set exactly when one of the applied rules fired
      with it. */
  lemma {:induction false} CollectMembership<T>(rules: seq<Rule<T>>, k: nat, x: T)
    requires k <= |rules|
    ensures x in Collect(rules, k) <==> Rule(true, x) in rules[..k]
  {
    if k > 0 {
      CollectMembership(rules, k - 1, x);
      assert rules[..k] == rules[..k - 1] + [rules[k - 1]];
    }
  }

  /** The whole table applied: an entry is in the set exactly when a rule
      of the table fired with it. */
  lemma CollectHolds<T>(rules: seq<Rule<T>>, x: T)
    ensures x in Collect(rules, |rules|) <==> Rule(true, x) in rules
  {
    CollectMembership(rules, |rules|, x);
    assert rules[..|rules|] == rules;
  }

  /** The set never holds an entry twice. */
  lemma {:induction false} CollectNoDuplicates<T>(rules: seq<Rule<T>>, k: nat)
    requires k <= |rules|
    ensures NoDuplicates(Collect(rules, k))
  {
    if k > 0 {
      CollectNoDuplicates(rules, k - 1);
      var s := Collect(rules, k - 1);
      if rules[k - 1].fires && rules[k - 1].entry !in s {
        assert Collect(rules, k) == s + [rules[k - 1].entry];
      }
    }
  }

  /** When the last rule fires with an entry no earlier rule has, that
      entry comes last. */
  lemma CollectLast<T>(rules: seq<Rule<T>>, x: T)
    requires |rules| > 0 && rules[|rules| - 1] == Rule(true, x)
    requires forall i :: 0 <= i < |rules| - 1 ==> rules[i].entry != x
    ensures |Collect(rules, |rules|)| > 0
    ensures Collect(rules, |rules|)[|Collect(rules, |rules|)| - 1] == x
  {
    var k := |rules| - 1;
    CollectMembership(rules, k, x);
    assert Collect(rules, k + 1) == Collect(rules, k) + [x];
  }

  /** When the first rule fires, its entry comes first. */
  lemma {:induction false} CollectFirst<T>(rules: seq<Rule<T>>, k: nat)
    requires 0 < k <= |rules| && rules[0].fires
    ensures |Collect(rules, k)| > 0 && Collect(rules, k)[0] == rules[0].entry
  {
    if k > 1 {
      CollectFirst(rules, k - 1);
    }
  }

  // ------------------------------------------------------ mapping a list

  /** `xs.map(f)`. */
  function Map<A, B>(f: A -> B, xs: seq<A>): (r: seq<B>)
    ensures |r| == |xs|
    ensures forall i :: 0 <= i < |xs| ==> r[i] == f(xs[i])
  {
    seq(|xs|, i requires 0 <= i < |xs| => f(xs[i]))
  }

  ghost predicate Injective<A(!new), B>(f: A -> B) {
    forall a, b :: f(a) == f(b) ==> a == b
  }

  /** Under an injective map, an image is in the mapped list exactly when
      its preimage is in the list. */
  lemma MapMembership<A(!new), B>(f: A -> B, xs: seq<A>, x: A)
    requires Injective(f)
    ensures f(x) in Map(f, xs) <==> x in xs
  {
    if f(x) in Map(f, xs) {
      var i :| 0 <= i < |xs| && Map(f, xs)[i] == f(x);
      assert xs[i] == x;
    }
    if x in xs {
      var i :| 0 <= i < |xs| && xs[i] == x;
      assert Map(f, xs)[i] == f(x);
    }
  }

  /** An injective map keeps a list free of duplicates. */
  lemma MapNoDuplicates<A(!new), B>(f: A -> B, xs: seq<A>)
    requires Injective(f) && NoDuplicates(xs)
    ensures NoDuplicates(Map(f, xs))
  {
  }
}
