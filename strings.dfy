/** The JavaScript string primitives the relay's bookkeeping is built on:
    `split('\r\n')` / `join('\r\n')` for the line-oriented queue files,
    `split(' ')` for queue entries, `Number.prototype.toString` and
    `parseFloat` for checkpoint files, and `toLowerCase` for address
    comparison. */
module Strings {

  datatype Option<T> = None | Some(value: T)

  /** A JavaScript call that either returns a value or throws. */
  datatype Result<T> = Ok(value: T) | Err(message: string)

  const CRLF: string := "\r\n"

  predicate NoLineBreak(s: string) {
    forall i :: 0 <= i < |s| ==> s[i] != '\r' && s[i] != '\n'
  }

  predicate NoSpace(s: string) {
    forall i :: 0 <= i < |s| ==> s[i] != ' '
  }

  // ---------------------------------------------------------------------
  // Decimal numbers: `n.toString()` and `parseFloat(text)`
  // ---------------------------------------------------------------------

  predicate IsDigit(c: char) {
    '0' <= c <= '9'
  }

  predicate AllDigits(s: string) {
    forall i :: 0 <= i < |s| ==> IsDigit(s[i])
  }

  function DigitChar(d: nat): (c: char)
    requires d < 10
    ensures IsDigit(c) && c as int - '0' as int == d
  {
    ('0' as int + d) as char
  }

  /** The decimal text JavaScript writes for a natural number. */
  function NatToString(n: nat): (s: string)
    ensures |s| >= 1 && AllDigits(s)
    decreases n
  {
    if n < 10 then [DigitChar(n)] else NatToString(n / 10) + [DigitChar(n % 10)]
  }

  /** The value of a string of decimal digits, read left to right. */
  function DigitsValue(s: string): nat
    requires AllDigits(s)
  {
    if s == [] then 0 else DigitsValue(s[..|s| - 1]) * 10 + (s[|s| - 1] as int - '0' as int)
  }

  /** Length of the longest prefix of `s` made of decimal digits. */
  function LeadingDigits(s: string): (k: nat)
    ensures k <= |s| && AllDigits(s[..k])
    ensures k < |s| ==> !IsDigit(s[k])
  {
    if s == [] || !IsDigit(s[0]) then 0
    else
      var k := 1 + LeadingDigits(s[1..]);
      assert s[..k] == [s[0]] + s[1..][..k - 1];
      k
  }

  /** `parseFloat` on an unsigned decimal prefix: the number the leading
      digits spell, or None for NaN when the text does not start with a
      digit (the empty file in particular). */
  function ParseNumber(s: string): (r: Option<nat>)
    ensures r.None? <==> (s == [] || !IsDigit(s[0]))
  {
    var k := LeadingDigits(s);
    if k == 0 then None else Some(DigitsValue(s[..k]))
  }

  lemma {:induction false} DigitsValueOfNatToString(n: nat)
    ensures DigitsValue(NatToString(n)) == n
    decreases n
  {
    if n >= 10 {
      var s := NatToString(n);
      assert s == NatToString(n / 10) + [DigitChar(n % 10)];
      assert s[..|s| - 1] == NatToString(n / 10);
      DigitsValueOfNatToString(n / 10);
    }
  }

  /** Writing `n.toString()` and reading it back with `parseFloat` gives n. */
  lemma NumberRoundTrip(n: nat)
    ensures ParseNumber(NatToString(n)) == Some(n)
  {
    var s := NatToString(n);
    var k := LeadingDigits(s);
    assert k == |s|;
    assert s[..k] == s;
    DigitsValueOfNatToString(n);
  }

  /** parseFloat stops at the first character that is not a digit. */
  lemma {:induction false} ParseNumberStopsAtNonDigit(n: nat, rest: string)
    requires rest == [] || !IsDigit(rest[0])
    ensures ParseNumber(NatToString(n) + rest) == Some(n)
  {
    var s := NatToString(n);
    LeadingDigitsOfDigitsThen(s, rest);
    assert (s + rest)[..|s|] == s;
    DigitsValueOfNatToString(n);
  }

  lemma {:induction false} LeadingDigitsOfDigitsThen(s: string, rest: string)
    requires AllDigits(s)
    requires rest == [] || !IsDigit(rest[0])
    ensures LeadingDigits(s + rest) == |s|
    decreases |s|
  {
    if s != [] {
      assert (s + rest)[1..] == s[1..] + rest;
      LeadingDigitsOfDigitsThen(s[1..], rest);
    } else {
      assert s + rest == rest;
    }
  }

  // ---------------------------------------------------------------------
  // Lower-casing: `toLowerCase` on the ASCII letters
  // ---------------------------------------------------------------------

  function LowerChar(c: char): char {
    if 'A' <= c <= 'Z' then (c as int + 32) as char else c
  }

  function ToLower(s: string): (r: string)
    ensures |r| == |s| && forall i :: 0 <= i < |s| ==> r[i] == LowerChar(s[i])
  {
    seq(|s|, i requires 0 <= i < |s| => LowerChar(s[i]))
  }

  lemma ToLowerIdempotent(s: string)
    ensures ToLower(ToLower(s)) == ToLower(s)
  {
  }

  // ---------------------------------------------------------------------
  // `text.split('\r\n')` and `lines.join('\r\n')`
  // ---------------------------------------------------------------------

  /** JavaScript's `s.split('\r\n')`: the pieces between the separators,
      scanning left to right; the empty string gives [""]. */
  function SplitCrlf(s: string): (parts: seq<string>)
    ensures |parts| >= 1
    decreases |s|
  {
    if |s| == 0 then [""]
    else if |s| >= 2 && s[0] == '\r' && s[1] == '\n' then [""] + SplitCrlf(s[2..])
    else
      var rest := SplitCrlf(s[1..]);
      [[s[0]] + rest[0]] + rest[1..]
  }

  /** JavaScript's `parts.join('\r\n')`. */
  function JoinCrlf(parts: seq<string>): string
  {
    if |parts| == 0 then ""
    else if |parts| == 1 then parts[0]
    else parts[0] + CRLF + JoinCrlf(parts[1..])
  }

  lemma JoinConsChar(c: char, p: string, tail: seq<string>)
    ensures JoinCrlf([[c] + p] + tail) == [c] + JoinCrlf([p] + tail)
  {
    if |tail| > 0 {
      assert ([[c] + p] + tail)[1..] == tail;
      assert ([p] + tail)[1..] == tail;
    }
  }

  /** Splitting on "\r\n" and joining back gives the text again. */
  lemma {:induction false} JoinSplit(s: string)
    ensures JoinCrlf(SplitCrlf(s)) == s
    decreases |s|
  {
    if |s| == 0 {
    } else if |s| >= 2 && s[0] == '\r' && s[1] == '\n' {
      JoinSplit(s[2..]);
      var p := SplitCrlf(s[2..]);
      assert ([""] + p)[1..] == p;
      assert s == CRLF + s[2..];
    } else {
      var rest := SplitCrlf(s[1..]);
      JoinSplit(s[1..]);
      assert [rest[0]] + rest[1..] == rest;
      JoinConsChar(s[0], rest[0], rest[1..]);
      assert s == [s[0]] + s[1..];
    }
  }

  /** Concatenation regroups freely. */
  lemma ConcatAssoc<T>(a: seq<T>, b: seq<T>, c: seq<T>)
    ensures a + (b + c) == (a + b) + c
  {
  }

  /** The text of a queue file holding `lines`: each line followed by "\r\n",
      as successive `appendFileSync(path, line + '\r\n')` calls leave it. */
  function QueueText(lines: seq<string>): string
  {
    if lines == [] then "" else lines[0] + CRLF + QueueText(lines[1..])
  }

  lemma {:induction false} QueueTextSnoc(lines: seq<string>, line: string)
    ensures QueueText(lines + [line]) == QueueText(lines) + line + CRLF
    decreases |lines|
  {
    if lines == [] {
      assert [] + [line] == [line];
    } else {
      assert (lines + [line])[1..] == lines[1..] + [line];
      QueueTextSnoc(lines[1..], line);
    }
  }

  lemma {:induction false} SplitLineThen(line: string, rest: string)
    requires NoLineBreak(line)
    ensures SplitCrlf(line + CRLF + rest) == [line] + SplitCrlf(rest)
    decreases |line|
  {
    var s := line + CRLF + rest;
    if line == [] {
      assert s == CRLF + rest;
      assert s[2..] == rest;
    } else {
      assert s[0] == line[0] && s[0] != '\r';
      assert s[1..] == line[1..] + CRLF + rest;
      SplitLineThen(line[1..], rest);
      assert [line[0]] + line[1..] == line;
    }
  }

  /** A queue file of well-formed lines splits into those lines followed by
      the empty piece after the final "\r\n". */
  lemma {:induction false} SplitQueueText(lines: seq<string>)
    requires forall i :: 0 <= i < |lines| ==> NoLineBreak(lines[i])
    ensures SplitCrlf(QueueText(lines)) == lines + [""]
    decreases |lines|
  {
    if lines != [] {
      SplitLineThen(lines[0], QueueText(lines[1..]));
      SplitQueueText(lines[1..]);
      assert [lines[0]] + (lines[1..] + [""]) == lines + [""];
    }
  }

  lemma {:induction false} JoinQueueLines(lines: seq<string>)
    ensures JoinCrlf(lines + [""]) == QueueText(lines)
    decreases |lines|
  {
    if lines != [] {
      assert (lines + [""])[1..] == lines[1..] + [""];
      JoinQueueLines(lines[1..]);
    }
  }

  // ---------------------------------------------------------------------
  // `line.split(' ')`
  // ---------------------------------------------------------------------

  /** JavaScript's `s.split(' ')`. */
  function SplitSpace(s: string): (parts: seq<string>)
    ensures |parts| >= 1
    decreases |s|
  {
    if |s| == 0 then [""]
    else if s[0] == ' ' then [""] + SplitSpace(s[1..])
    else
      var rest := SplitSpace(s[1..]);
      [[s[0]] + rest[0]] + rest[1..]
  }

  lemma {:induction false} SplitSpaceWord(word: string)
    requires NoSpace(word)
    ensures SplitSpace(word) == [word]
    decreases |word|
  {
    if word != [] {
      SplitSpaceWord(word[1..]);
      assert [word[0]] + word[1..] == word;
    }
  }

  lemma {:induction false} SplitSpaceWordThen(word: string, rest: string)
    requires NoSpace(word)
    ensures SplitSpace(word + " " + rest) == [word] + SplitSpace(rest)
    decreases |word|
  {
    var s := word + " " + rest;
    if word == [] {
      assert s == " " + rest && s[1..] == rest;
    } else {
      assert s[1..] == word[1..] + " " + rest;
      SplitSpaceWordThen(word[1..], rest);
      assert [word[0]] + word[1..] == word;
    }
  }

  /** A queue entry `txId + ' ' + json` with no space in either part splits
      back into exactly those two fields. */
  lemma EntryFields(txId: string, json: string)
    requires NoSpace(txId) && NoSpace(json)
    ensures SplitSpace(txId + " " + json) == [txId, json]
  {
    SplitSpaceWordThen(txId, json);
    SplitSpaceWord(json);
  }
}
