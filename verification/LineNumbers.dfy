/** Numbering the lines of a file shown to the model, so that it can be undone. */
module LineNumbers {

  /** One past the first line break, or the end. */
  function LineEnd(s: string): (n: nat)
    requires s != []
    ensures 0 < n <= |s|
    ensures forall i | 0 <= i < n - 1 :: s[i] != '\n'
    ensures n < |s| ==> s[n - 1] == '\n'
  {
    if s[0] == '\n' || |s| == 1 then 1 else 1 + LineEnd(s[1..])
  }

  function Digit(d: nat): (c: char)
    requires d < 10
    ensures '0' <= c <= '9'
  {
    '0' + d as char
  }

  function Decimal(n: nat): (r: string)
    ensures r != [] && forall i | 0 <= i < |r| :: '0' <= r[i] <= '9'
  {
    if n < 10 then [Digit(n)] else Decimal(n / 10) + [Digit(n % 10)]
  }

  /** Lines of `s` with their numbers, the first one numbered `first`. */
  function Numbered(s: string, first: nat): (r: string)
    decreases |s|
  {
    if s == [] then [] else Decimal(first) + "|" + s[..LineEnd(s)] + Numbered(s[LineEnd(s)..], first + 1)
  }

  method AppendTextWithLineNumbers(formatted: string, contents: string) returns (r: string)
    ensures r == formatted + Numbered(contents, 1)
  {
    r := formatted;
    var rest, index := contents, 0;
    while rest != []
      invariant formatted + Numbered(contents, 1) == r + Numbered(rest, index + 1)
      decreases |rest|
    {
      var line := rest[..LineEnd(rest)];
      r := r + Decimal(index + 1) + "|" + line;
      rest, index := rest[|line|..], index + 1;
    }
  }

  /** Drops everything through the first bar. */
  function AfterBar(line: string): (r: string) {
    if line == [] then [] else if line[0] == '|' then line[1..] else AfterBar(line[1..])
  }

  /** Removes the numbers again, line by line. */
  function Stripped(t: string): (r: string)
    decreases |t|
  {
    if t == [] then [] else AfterBar(t[..LineEnd(t)]) + Stripped(t[LineEnd(t)..])
  }

  lemma {:induction false} AfterBarSkips(number: string, line: string)
    requires forall i | 0 <= i < |number| :: number[i] != '|'
    ensures AfterBar(number + "|" + line) == line
    decreases |number|
  {
    if number == [] {
      assert number + "|" + line == "|" + line;
    } else {
      assert (number + "|" + line)[1..] == number[1..] + "|" + line;
      AfterBarSkips(number[1..], line);
    }
  }

  /** A numbered line ends where the line ends. */
  lemma NumberedLineEnd(number: string, line: string, rest: string)
    requires line != [] && forall i | 0 <= i < |number| :: number[i] != '\n'
    requires forall i | 0 <= i < |line| - 1 :: line[i] != '\n'
    requires line[|line| - 1] == '\n' || rest == []
    ensures LineEnd(number + "|" + line + rest) == |number| + 1 + |line|
  {
    var t := number + "|" + line + rest;
    var end := |number| + 1 + |line|;
    assert t[end - 1] == line[|line| - 1];
    assert forall i | |number| < i < end - 1 :: t[i] == line[i - |number| - 1];
  }

  lemma StripFirst(number: string, line: string, rest: string)
    requires line != [] && forall i | 0 <= i < |number| :: number[i] != '\n' && number[i] != '|'
    requires forall i | 0 <= i < |line| - 1 :: line[i] != '\n'
    requires line[|line| - 1] == '\n' || rest == []
    ensures Stripped(number + "|" + line + rest) == line + Stripped(rest)
  {
    var head := number + "|" + line;
    NumberedLineEnd(number, line, rest);
    assert (head + rest)[..|head|] == head && (head + rest)[|head|..] == rest;
    AfterBarSkips(number, line);
  }

  lemma FirstLine(s: string, first: nat) returns (line: string, tail: string)
    requires s != []
    ensures s == line + tail && line != [] && (line[|line| - 1] == '\n' || tail == [])
    ensures forall i | 0 <= i < |line| - 1 :: line[i] != '\n'
    ensures Numbered(s, first) == Decimal(first) + "|" + line + Numbered(tail, first + 1)
  {
    line, tail := s[..LineEnd(s)], s[LineEnd(s)..];
  }

  /** Stripping the numbers gives back exactly the original, whatever it holds. */
  lemma {:induction false} NumbersStrip(s: string, first: nat)
    ensures Stripped(Numbered(s, first)) == s
    decreases |s|
  {
    if s != [] {
      var line, tail := FirstLine(s, first);
      NumbersStrip(tail, first + 1);
      StripFirst(Decimal(first), line, Numbered(tail, first + 1));
    }
  }

  /** Reading a number. */
  function Value(digits: string): (n: nat)
    decreases |digits|
  {
    if digits == [] then 0 else
    var c := digits[|digits| - 1];
    Value(digits[..|digits| - 1]) * 10 + if '0' <= c <= '9' then c as int - '0' as int else 0
  }

  /** The decimal notation of a number reads as that number and has no leading zero. */
  lemma {:induction false} DecimalReads(n: nat)
    ensures Value(Decimal(n)) == n && (n > 0 ==> Decimal(n)[0] != '0')
  {
    if n >= 10 {
      DecimalReads(n / 10);
      assert Decimal(n)[..|Decimal(n)| - 1] == Decimal(n / 10);
    }
  }

  function BeforeBar(line: string): (r: string) {
    if line == [] || line[0] == '|' then [] else [line[0]] + BeforeBar(line[1..])
  }

  lemma {:induction false} BeforeBarReads(number: string, line: string)
    requires forall i | 0 <= i < |number| :: number[i] != '|'
    ensures BeforeBar(number + "|" + line) == number
    decreases |number|
  {
    if number == [] {
      assert number + "|" + line == "|" + line;
    } else {
      assert (number + "|" + line)[1..] == number[1..] + "|" + line;
      BeforeBarReads(number[1..], line);
    }
  }

  function LineCount(s: string): (n: nat)
    decreases |s|
  {
    if s == [] then 0 else 1 + LineCount(s[LineEnd(s)..])
  }

  /** The number in front of each line. */
  function NumbersOf(t: string): (r: seq<nat>)
    decreases |t|
  {
    if t == [] then [] else [Value(BeforeBar(t[..LineEnd(t)]))] + NumbersOf(t[LineEnd(t)..])
  }

  lemma NumberFirst(number: string, line: string, rest: string)
    requires line != [] && forall i | 0 <= i < |number| :: number[i] != '\n' && number[i] != '|'
    requires forall i | 0 <= i < |line| - 1 :: line[i] != '\n'
    requires line[|line| - 1] == '\n' || rest == []
    ensures NumbersOf(number + "|" + line + rest) == [Value(number)] + NumbersOf(rest)
  {
    var head := number + "|" + line;
    NumberedLineEnd(number, line, rest);
    assert (head + rest)[..|head|] == head && (head + rest)[|head|..] == rest;
    BeforeBarReads(number, line);
  }

  /** The lines are counted from `first` on, and as many as there are. */
  lemma {:induction false} LinesCounted(s: string, first: nat)
    ensures |NumbersOf(Numbered(s, first))| == LineCount(s)
    ensures forall i | 0 <= i < LineCount(s) :: NumbersOf(Numbered(s, first))[i] == first + i
    decreases |s|
  {
    if s != [] {
      var line, tail := s[..LineEnd(s)], s[LineEnd(s)..];
      var rest := Numbered(tail, first + 1);
      LinesCounted(tail, first + 1);
      DecimalReads(first);
      NumberFirst(Decimal(first), line, rest);
    }
  }
}
