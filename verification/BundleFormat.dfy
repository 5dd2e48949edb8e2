/** The text a bundle's checksum is taken over (internal/backup/bundle.go:116-123): one line per exported group,
    read back without loss exactly as long as no group name starts with another group's whole line. */
module BundleFormat {

  datatype ContextEntry = ContextEntry(name: string, recordCount: int, sha256: string)

  function Digit(d: nat): (c: char)
    requires d < 10
    ensures '0' <= c <= '9' && c as int - '0' as int == d
  {
    '0' + d as char
  }

  function Decimal(n: nat): string {
    if n < 10 then [Digit(n)] else Decimal(n / 10) + [Digit(n % 10)]
  }

  /** What %d prints. */
  function Number(n: int): string {
    if n < 0 then "-" + Decimal(-n) else Decimal(n)
  }

  function Line(c: ContextEntry): string {
    c.name + ":" + Number(c.recordCount) + ":" + c.sha256
  }

  function Printed(contexts: seq<ContextEntry>): string {
    if contexts == [] then "" else Line(contexts[0]) + "\n" + Printed(contexts[1..])
  }

  predicate IsHexDigit(c: char) {
    '0' <= c <= '9' || 'a' <= c <= 'f'
  }

  ghost predicate IsHex(s: string) {
    forall i | 0 <= i < |s| :: IsHexDigit(s[i])
  }

  /** Every digest is written in lower-case hexadecimal. */
  ghost predicate Digests(sha: string -> string) {
    forall data :: IsHex(sha(data))
  }

  // ---------------------------------------------------------------- numbers

  ghost predicate Lacks(s: string, c: char) {
    forall i | 0 <= i < |s| :: s[i] != c
  }

  lemma {:induction false} DecimalDigits(n: nat)
    ensures |Decimal(n)| > 0 && forall i | 0 <= i < |Decimal(n)| :: '0' <= Decimal(n)[i] <= '9'
  {
    if n >= 10 {
      DecimalDigits(n / 10);
    }
  }

  lemma {:induction false} DecimalInjective(m: nat, n: nat)
    requires Decimal(m) == Decimal(n)
    ensures m == n
  {
    var s := Decimal(m);
    DecimalDigits(m / 10);
    DecimalDigits(n / 10);
    if m < 10 || n < 10 {
      assert |s| == 1;
    } else {
      assert s[..|s| - 1] == Decimal(m / 10) && s[..|s| - 1] == Decimal(n / 10);
      assert s[|s| - 1] == Digit(m % 10) == Digit(n % 10);
      DecimalInjective(m / 10, n / 10);
    }
  }

  /** The number that a string of digits reads as, the most significant digit first. */
  function Reading(s: string): int {
    if s == "" then 0 else 10 * Reading(s[..|s| - 1]) + (s[|s| - 1] as int - '0' as int)
  }

  /** Numbers are printed in decimal, without leading zeros. */
  lemma {:induction false} DecimalReads(n: nat)
    ensures Reading(Decimal(n)) == n
    ensures n > 0 ==> Decimal(n)[0] != '0'
  {
    DecimalDigits(n);
    if n >= 10 {
      DecimalReads(n / 10);
      var s := Decimal(n);
      assert s[..|s| - 1] == Decimal(n / 10) && s[|s| - 1] == Digit(n % 10);
      DecimalDigits(n / 10);
      assert s[0] == Decimal(n / 10)[0];
    } else {
      assert Decimal(n)[..0] == "";
    }
  }

  /** Only a negative number starts with a minus. */
  lemma NumberSign(n: int)
    ensures |Number(n)| > 0 && (Number(n)[0] == '-' <==> n < 0)
    ensures n < 0 ==> Number(n)[1..] == Decimal(-n)
  {
    DecimalDigits(if n < 0 then -n else n);
  }

  lemma NumberInjective(m: int, n: int)
    requires Number(m) == Number(n)
    ensures m == n
  {
    NumberSign(m);
    NumberSign(n);
    if m < 0 {
      DecimalInjective(-m, -n);
    } else {
      DecimalInjective(m, n);
    }
  }

  lemma NumberPlain(n: int)
    ensures Lacks(Number(n), ':') && Lacks(Number(n), '\n')
  {
    DecimalDigits(if n < 0 then -n else n);
  }

  // ---------------------------------------------------------------- reading it back

  /** The last separator cannot move. */
  lemma SplitLast(a: string, x: string, b: string, y: string, c: char)
    requires a + [c] + x == b + [c] + y && Lacks(x, c) && Lacks(y, c)
    ensures a == b && x == y
  {
    var s := a + [c] + x;
    assert s[|a|] == c && s[|b|] == c;
    assert forall i | |a| < i < |s| :: s[i] == x[i - |a| - 1];
    assert forall i | |b| < i < |s| :: s[i] == y[i - |b| - 1];
    assert |a| == |b|;
    assert a == s[..|a|] && b == s[..|b|];
    assert x == s[|a| + 1..] && y == s[|b| + 1..];
  }

  /** A line gives back its entry even when the name holds colons: the two that separate are the last two. */
  lemma LineInjective(c: ContextEntry, d: ContextEntry)
    requires Line(c) == Line(d) && IsHex(c.sha256) && IsHex(d.sha256)
    ensures c == d
  {
    NumberPlain(c.recordCount);
    NumberPlain(d.recordCount);
    SplitLast(c.name + ":" + Number(c.recordCount), c.sha256, d.name + ":" + Number(d.recordCount), d.sha256, ':');
    SplitLast(c.name, Number(c.recordCount), d.name, Number(d.recordCount), ':');
    NumberInjective(c.recordCount, d.recordCount);
  }

  /** Nothing after the name breaks the line, so a break in the line is one in the name. */
  lemma BreakIsInName(c: ContextEntry, at: nat)
    requires IsHex(c.sha256) && at < |Line(c)| && Line(c)[at] == '\n'
    ensures at < |c.name| && Line(c)[..|c.name|] == c.name
  {
    NumberPlain(c.recordCount);
    var tail := ":" + Number(c.recordCount) + ":" + c.sha256;
    assert Line(c) == c.name + tail;
    assert forall i | 0 <= i < |tail| :: tail[i] != '\n';
  }

  /** The name starts with the whole line of some group. */
  ghost predicate Forges(name: string) {
    exists c, rest :: ForgesAs(name, c, rest)
  }

  ghost predicate ForgesAs(name: string, c: ContextEntry, rest: string) {
    name == Line(c) + "\n" + rest && IsHex(c.sha256)
  }

  ghost predicate HexDigests(contexts: seq<ContextEntry>) {
    forall i | 0 <= i < |contexts| :: IsHex(contexts[i].sha256)
  }

  ghost predicate Unforged(contexts: seq<ContextEntry>) {
    forall i | 0 <= i < |contexts| :: !Forges(contexts[i].name)
  }

  lemma LongerLineForges(c: ContextEntry, x: string, d: ContextEntry, y: string)
    requires Line(c) + "\n" + x == Line(d) + "\n" + y && IsHex(c.sha256) && IsHex(d.sha256) && |Line(c)| < |Line(d)|
    ensures Forges(d.name)
  {
    var text := Line(c) + "\n" + x;
    assert Line(d)[|Line(c)|] == text[|Line(c)|] == '\n';
    BreakIsInName(d, |Line(c)|);
    var rest := d.name[|Line(c)| + 1..];
    assert d.name == Line(d)[..|d.name|] == text[..|d.name|];
    assert text[..|Line(c)| + 1] == Line(c) + "\n";
    assert d.name == d.name[..|Line(c)| + 1] + rest;
    assert ForgesAs(d.name, c, rest);
  }

  lemma SameLengthLines(c: ContextEntry, x: string, d: ContextEntry, y: string)
    requires Line(c) + "\n" + x == Line(d) + "\n" + y && |Line(c)| == |Line(d)|
    ensures Line(c) == Line(d) && x == y
  {
    var text := Line(c) + "\n" + x;
    assert Line(c) == text[..|Line(c)|] == Line(d);
    assert x == text[|Line(c)| + 1..] == y;
  }

  /** Among lists whose names forge nothing, the hashed text determines the list of groups: names, counts, digests
      and order. */
  lemma {:induction false} PrintedInjective(a: seq<ContextEntry>, b: seq<ContextEntry>)
    requires HexDigests(a) && Unforged(a) && HexDigests(b) && Unforged(b) && Printed(a) == Printed(b)
    ensures a == b
    decreases |a|
  {
    if a != [] && b != [] {
      var x, y := Printed(a[1..]), Printed(b[1..]);
      if |Line(a[0])| < |Line(b[0])| {
        LongerLineForges(a[0], x, b[0], y);
      } else if |Line(b[0])| < |Line(a[0])| {
        LongerLineForges(b[0], y, a[0], x);
      }
      SameLengthLines(a[0], x, b[0], y);
      LineInjective(a[0], b[0]);
      PrintedInjective(a[1..], b[1..]);
      assert a == [a[0]] + a[1..] && b == [b[0]] + b[1..];
    }
  }

  lemma {:induction false} PrintedConcat(a: seq<ContextEntry>, b: seq<ContextEntry>)
    ensures Printed(a + b) == Printed(a) + Printed(b)
  {
    if a == [] {
      assert a + b == b;
    } else {
      assert (a + b)[1..] == a[1..] + b;
      PrintedConcat(a[1..], b);
      assert (Line(a[0]) + "\n") + (Printed(a[1..]) + Printed(b)) == (Line(a[0]) + "\n" + Printed(a[1..])) + Printed(b);
    }
  }

  lemma PrintedOne(c: ContextEntry)
    ensures Printed([c]) == Line(c) + "\n"
  {
    assert [c][1..] == [];
  }

  lemma LineOfForged(e: ContextEntry, c: ContextEntry, rest: string)
    requires ForgesAs(e.name, c, rest)
    ensures |c.name| < |e.name| && |rest| < |e.name|
    ensures Line(e) + "\n" == (Line(c) + "\n") + (Line(e.(name := rest)) + "\n")
  {
    assert e.name + ":" == (Line(c) + "\n") + (rest + ":");
    assert Line(e) == (Line(c) + "\n") + Line(e.(name := rest));
  }

  /** The groups that an entry's line is read as. */
  lemma {:induction false} ReadEntry(e: ContextEntry) returns (groups: seq<ContextEntry>)
    requires IsHex(e.sha256)
    ensures HexDigests(groups) && Unforged(groups) && Printed(groups) == Printed([e])
    decreases |e.name|
  {
    groups := [e];
    if Forges(e.name) {
      var c, rest :| ForgesAs(e.name, c, rest);
      LineOfForged(e, c, rest);
      var last := e.(name := rest);
      var front := ReadEntry(c);
      var back := ReadEntry(last);
      groups := front + back;
      PrintedConcat(front, back);
      PrintedOne(c);
      PrintedOne(last);
      PrintedOne(e);
    }
  }

  /** Every list is hashed like exactly one list whose names forge nothing (PrintedInjective), and that is the list
      itself exactly when its own names forge nothing. */
  lemma {:induction false} ForgedIsRead(a: seq<ContextEntry>) returns (b: seq<ContextEntry>)
    requires HexDigests(a)
    ensures HexDigests(b) && Unforged(b) && Printed(b) == Printed(a)
    ensures b == a <==> Unforged(a)
  {
    if a == [] {
      b := [];
    } else {
      var head := ReadEntry(a[0]);
      var tail := ForgedIsRead(a[1..]);
      b := head + tail;
      PrintedConcat(head, tail);
      PrintedConcat([a[0]], a[1..]);
      assert a == [a[0]] + a[1..];
      if Unforged(a) {
        PrintedInjective(a, b);
      }
    }
  }

  /** For instance: a name with a line break after another group's name, count and digest stands for that group. */
  lemma LineBreakForgesGroups(first: string, second: string)
    requires IsHex(first)
    ensures Forges("a:1:" + first + "\nb")
    ensures Printed([ContextEntry("a:1:" + first + "\nb", 2, second)]) ==
            Printed([ContextEntry("a", 1, first), ContextEntry("b", 2, second)])
  {
    var joined := ContextEntry("a:1:" + first + "\nb", 2, second);
    var a, b := ContextEntry("a", 1, first), ContextEntry("b", 2, second);
    assert Number(1) == "1" && Number(2) == "2";
    PrintedOne(joined);
    PrintedOne(a);
    PrintedOne(b);
    PrintedConcat([a], [b]);
    assert [a] + [b] == [a, b];
    assert Line(joined) == Line(a) + "\n" + Line(b);
    assert ForgesAs(joined.name, a, "b");
  }
}
