/** Text building blocks used by the cheat-guard templates: the `"=".repeat(n)`
    borders, the decimal rendering of an index that `format!("{}", i + 1)` does,
    `join("\n")`, the text a sequence of `println!` calls puts on a stream, and the
    `contains` test used by the crate's own unit test. Each comes with its partner:
    a parser for the decimal rendering, a line splitter for the joins. */
module Text {

  // ---------------------------------------------------------------------------
  // Repetition
  // ---------------------------------------------------------------------------

  /** `n` copies of `c`, as Rust's `str::repeat` builds a border. */
  function Repeat(c: char, n: nat): (r: string)
    ensures |r| == n
    ensures forall i :: 0 <= i < n ==> r[i] == c
  {
    seq(n, _ => c)
  }

  // ---------------------------------------------------------------------------
  // Decimal rendering of a natural number
  // ---------------------------------------------------------------------------

  predicate IsDigit(c: char) {
    '0' <= c <= '9'
  }

  predicate AllDigits(s: string) {
    forall i :: 0 <= i < |s| ==> IsDigit(s[i])
  }

  function DigitChar(d: nat): (c: char)
    requires d < 10
    ensures IsDigit(c) && c as int - '0' as int == d
  {
    ('0' as int + d) as char
  }

  function DigitValue(c: char): (d: nat)
    requires IsDigit(c)
    ensures d < 10
  {
    c as int - '0' as int
  }

  /** The shortest decimal rendering of `n`, as `Display` prints an unsigned integer. */
  function Decimal(n: nat): (s: string)
    ensures |s| > 0 && AllDigits(s)
    ensures s[0] == '0' ==> n == 0 && s == "0"
    decreases n
  {
    if n < 10 then [DigitChar(n)] else Decimal(n / 10) + [DigitChar(n % 10)]
  }

  /** Reads a string of digits back as a number (the partner of `Decimal`). */
  function DecimalValue(s: string): nat
    requires AllDigits(s)
  {
    if |s| == 0 then 0 else 10 * DecimalValue(s[..|s| - 1]) + DigitValue(s[|s| - 1])
  }

  lemma {:induction false} DecimalRoundTrip(n: nat)
    ensures DecimalValue(Decimal(n)) == n
    decreases n
  {
    var s := Decimal(n);
    if n >= 10 {
      DecimalRoundTrip(n / 10);
      assert s[..|s| - 1] == Decimal(n / 10);
    }
  }

  /** Distinct numbers are rendered differently, so the numbering of a list is unambiguous. */
  lemma DecimalInjective(m: nat, n: nat)
    ensures Decimal(m) == Decimal(n) <==> m == n
  {
    DecimalRoundTrip(m);
    DecimalRoundTrip(n);
  }

  // ---------------------------------------------------------------------------
  // Joining and splitting lines
  // ---------------------------------------------------------------------------

  /** `parts.join(sep)`: the parts in order, with `sep` between neighbours. */
  function Join(parts: seq<string>, sep: string): string
  {
    if |parts| == 0 then ""
    else if |parts| == 1 then parts[0]
    else parts[0] + sep + Join(parts[1..], sep)
  }

  /** `s.split(sep)`: the maximal pieces of `s` between occurrences of `sep`. */
  function Split(s: string, sep: char): (pieces: seq<string>)
    ensures |pieces| > 0
    ensures forall i :: 0 <= i < |pieces| ==> sep !in pieces[i]
  {
    if |s| == 0 then [""]
    else if s[0] == sep then [""] + Split(s[1..], sep)
    else
      var rest := Split(s[1..], sep);
      [[s[0]] + rest[0]] + rest[1..]
  }

  predicate NoneContains(parts: seq<string>, c: char) {
    forall i :: 0 <= i < |parts| ==> c !in parts[i]
  }

  lemma {:induction false} SplitWithoutSeparator(s: string, sep: char)
    requires sep !in s
    ensures Split(s, sep) == [s]
  {
    if |s| > 0 {
      SplitWithoutSeparator(s[1..], sep);
      assert [s[0]] + s[1..] == s;
    }
  }

  /** Splitting at a separator splits each side independently. */
  lemma {:induction false} SplitAppend(a: string, b: string, sep: char)
    ensures Split(a + [sep] + b, sep) == Split(a, sep) + Split(b, sep)
  {
    var s := a + [sep] + b;
    if |a| == 0 {
      assert s == [sep] + b;
      assert s[1..] == b;
    } else {
      assert s[0] == a[0];
      assert s[1..] == a[1..] + [sep] + b;
      SplitAppend(a[1..], b, sep);
    }
  }

  /** Joining separator-free lines and splitting the result gives the lines back. */
  lemma {:induction false} SplitJoin(parts: seq<string>, sep: char)
    requires |parts| > 0 && NoneContains(parts, sep)
    ensures Split(Join(parts, [sep]), sep) == parts
  {
    if |parts| == 1 {
      SplitWithoutSeparator(parts[0], sep);
    } else {
      SplitWithoutSeparator(parts[0], sep);
      SplitJoin(parts[1..], sep);
      SplitAppend(parts[0], Join(parts[1..], [sep]), sep);
      assert [parts[0]] + parts[1..] == parts;
    }
  }

  /** Splitting and joining back gives the original text. */
  lemma {:induction false} JoinSplit(s: string, sep: char)
    ensures Join(Split(s, sep), [sep]) == s
  {
    if |s| > 0 {
      var rest := Split(s[1..], sep);
      JoinSplit(s[1..], sep);
      if s[0] == sep {
        assert Split(s, sep)[1..] == rest;
      } else {
        var pieces := Split(s, sep);
        assert pieces[1..] == rest[1..];
        if |rest| == 1 {
          assert pieces == [[s[0]] + rest[0]];
        } else {
          assert rest == [rest[0]] + rest[1..];
        }
        assert [s[0]] + s[1..] == s;
      }
    }
  }

  // ---------------------------------------------------------------------------
  // Line-oriented output streams
  // ---------------------------------------------------------------------------

  /** The text a stream receives from one `println!` per element: each payload followed by a newline. */
  function Emitted(writes: seq<string>): string
  {
    if |writes| == 0 then "" else writes[0] + "\n" + Emitted(writes[1..])
  }

  /** What a stream receives from non-empty payloads is the payloads joined by
      newlines, followed by one final newline. */
  lemma {:induction false} EmittedIsJoin(writes: seq<string>)
    requires |writes| > 0
    ensures Emitted(writes) == Join(writes, "\n") + "\n"
  {
    if |writes| > 1 {
      var head, rest := writes[0], Join(writes[1..], "\n");
      EmittedIsJoin(writes[1..]);
      assert Emitted(writes) == head + "\n" + (rest + "\n");
      assert head + "\n" + (rest + "\n") == head + "\n" + rest + "\n";
    }
  }

  lemma EmittedCons(w: string, ws: seq<string>)
    ensures Emitted([w] + ws) == w + "\n" + Emitted(ws)
  {
    assert ([w] + ws)[1..] == ws;
  }

  lemma EmittedOne(a: string)
    ensures Emitted([a]) == a + "\n"
  {
    EmittedCons(a, []);
    assert [a] + [] == [a];
  }

  lemma EmittedThree(a: string, b: string, c: string)
    ensures Emitted([a, b, c]) == a + "\n" + b + "\n" + c + "\n"
  {
    EmittedOne(c);
    EmittedCons(b, [c]);
    assert [b] + [c] == [b, c];
    EmittedCons(a, [b, c]);
    assert [a] + [b, c] == [a, b, c];
  }

  lemma {:induction false} EmittedAppend(xs: seq<string>, ys: seq<string>)
    ensures Emitted(xs + ys) == Emitted(xs) + Emitted(ys)
  {
    if |xs| > 0 {
      EmittedAppend(xs[1..], ys);
      assert (xs + ys)[1..] == xs[1..] + ys;
    } else {
      assert xs + ys == ys;
    }
  }

  /** Newline-free payloads are read back one per line, followed by the empty piece
      after the final newline. */
  lemma {:induction false} SplitEmitted(writes: seq<string>)
    requires NoneContains(writes, '\n')
    ensures Split(Emitted(writes), '\n') == writes + [""]
  {
    if |writes| > 0 {
      SplitEmitted(writes[1..]);
      SplitWithoutSeparator(writes[0], '\n');
      SplitAppend(writes[0], Emitted(writes[1..]), '\n');
      assert [writes[0]] + (writes[1..] + [""]) == writes + [""];
    }
  }

  // ---------------------------------------------------------------------------
  // Substrings
  // ---------------------------------------------------------------------------

  /** `s.contains(t)`. */
  ghost predicate Contains(s: string, t: string) {
    exists i :: OccursAt(s, t, i)
  }

  /** `s.contains(t)` as the program evaluates it: a search over every start offset. */
  predicate HasSubstring(s: string, t: string): (b: bool)
    ensures b <==> Contains(s, t)
  {
    exists i | 0 <= i <= |s| - |t| :: OccursAt(s, t, i)
  }

  /** `t` occurs in `s` starting at offset `i`. */
  predicate OccursAt(s: string, t: string, i: int) {
    0 <= i <= |s| - |t| && s[i..i + |t|] == t
  }

  lemma ContainsTrans(s: string, m: string, t: string)
    requires Contains(s, m) && Contains(m, t)
    ensures Contains(s, t)
  {
    var i :| OccursAt(s, m, i);
    var j :| OccursAt(m, t, j);
    forall k | 0 <= k < |t|
      ensures s[i + j..i + j + |t|][k] == t[k]
    {
      assert t[k] == m[j + k] == s[i + j + k];
    }
    assert OccursAt(s, t, i + j);
  }

  lemma ContainsSelf(s: string)
    ensures Contains(s, s)
  {
    assert OccursAt(s, s, 0);
  }

  /** Every part of a join occurs in it. */
  lemma {:induction false} ContainsJoinPart(parts: seq<string>, sep: string, k: nat)
    requires k < |parts|
    ensures Contains(Join(parts, sep), parts[k])
  {
    if |parts| == 1 {
      ContainsSelf(parts[0]);
    } else if k == 0 {
      ContainsSelf(parts[0]);
      ContainsLeft(parts[0], sep, parts[0]);
      ContainsLeft(parts[0] + sep, Join(parts[1..], sep), parts[0]);
    } else {
      ContainsJoinPart(parts[1..], sep, k - 1);
      ContainsRight(parts[0] + sep, Join(parts[1..], sep), parts[k]);
    }
  }

  /** A string contains any of its suffixes' occurrences: dropping a prefix of the pattern keeps it found. */
  lemma ContainsDropPrefix(s: string, a: string, t: string)
    requires Contains(s, a + t)
    ensures Contains(s, t)
  {
    ContainsSelf(t);
    ContainsRight(a, t, t);
    ContainsTrans(s, a + t, t);
  }

  /** Every payload occurs in what the stream receives. */
  lemma {:induction false} ContainsEmittedLine(writes: seq<string>, k: nat)
    requires k < |writes|
    ensures Contains(Emitted(writes), writes[k])
  {
    if k == 0 {
      ContainsSelf(writes[0]);
      ContainsLeft(writes[0], "\n", writes[0]);
      ContainsLeft(writes[0] + "\n", Emitted(writes[1..]), writes[0]);
    } else {
      ContainsEmittedLine(writes[1..], k - 1);
      ContainsRight(writes[0] + "\n", Emitted(writes[1..]), writes[k]);
    }
  }

  lemma ContainsLeft(x: string, y: string, t: string)
    requires Contains(x, t)
    ensures Contains(x + y, t)
  {
    var i :| OccursAt(x, t, i);
    assert (x + y)[i..i + |t|] == x[i..i + |t|];
    assert OccursAt(x + y, t, i);
  }

  lemma ContainsRight(x: string, y: string, t: string)
    requires Contains(y, t)
    ensures Contains(x + y, t)
  {
    var i :| OccursAt(y, t, i);
    assert (x + y)[|x| + i..|x| + i + |t|] == y[i..i + |t|];
    assert OccursAt(x + y, t, |x| + i);
  }

  /** A line found in the output of some writes is found in the output of more writes. */
  lemma ContainsEmittedLeft(xs: seq<string>, ys: seq<string>, t: string)
    requires Contains(Emitted(xs), t)
    ensures Contains(Emitted(xs + ys), t)
  {
    EmittedAppend(xs, ys);
    ContainsLeft(Emitted(xs), Emitted(ys), t);
  }

  lemma ContainsEmittedRight(xs: seq<string>, ys: seq<string>, t: string)
    requires Contains(Emitted(ys), t)
    ensures Contains(Emitted(xs + ys), t)
  {
    EmittedAppend(xs, ys);
    ContainsRight(Emitted(xs), Emitted(ys), t);
  }

  lemma NoneContainsAppend(xs: seq<string>, ys: seq<string>, c: char)
    requires NoneContains(xs, c) && NoneContains(ys, c)
    ensures NoneContains(xs + ys, c)
  {
    forall i | 0 <= i < |xs + ys|
      ensures c !in (xs + ys)[i]
    {
      if i >= |xs| {
        assert (xs + ys)[i] == ys[i - |xs|];
      }
    }
  }

  // ---------------------------------------------------------------------------
  // Prefixes and suffixes
  // ---------------------------------------------------------------------------

  predicate StartsWith(s: string, p: string) {
    |p| <= |s| && s[..|p|] == p
  }

  predicate EndsWith(s: string, q: string) {
    |q| <= |s| && s[|s| - |q|..] == q
  }

  lemma StartsWithAppend(x: string, y: string, p: string)
    requires StartsWith(x, p)
    ensures StartsWith(x + y, p)
  {
    assert (x + y)[..|p|] == x[..|p|];
  }

  lemma EndsWithPrepend(x: string, y: string, q: string)
    requires EndsWith(y, q)
    ensures EndsWith(x + y, q)
  {
    assert (x + y)[|x + y| - |q|..] == y[|y| - |q|..];
  }
}
