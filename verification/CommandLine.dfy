/**
 Windows command-line quoting of the ctest runner, and the rule by which a Microsoft C
 program reads such a line back ("Parsing C command-line arguments", the general rule
 for arguments after the program name).

 The runner counts backslashes in a 32-bit unsigned variable; the model wraps it.
 */
module CommandLine {
  import opened Common

  const HALF: nat := 0x8000_0000

  // 32-bit unsigned arithmetic
  function Wrap32(n: nat): (r: nat) ensures r < U32 { n % U32 }
  function Low31(n: nat): (r: nat) ensures r < HALF { n % HALF }

  predicate Blank(c: char) { c == ' ' || c == '\t' }

  // n backslashes
  function Rep(n: nat): string { seq(n, _ => '\\') }

  // ---- the printer ----

  predicate NeedsQuotes(arg: string) {
    exists i :: 0 <= i < |arg| && (Blank(arg[i]) || arg[i] == '"')
  }

  // What the quoting loop still writes for the rest `s` after `b` pending backslashes.
  function Emit(s: string, b: nat): string {
    if s == [] then Rep(Wrap32(2 * b)) + ['"']
    else if s[0] == '\\' then Emit(s[1..], Wrap32(b + 1))
    else if s[0] == '"' then Rep(Wrap32(2 * b + 1)) + ['"'] + Emit(s[1..], 0)
    else Rep(b) + [s[0]] + Emit(s[1..], 0)
  }

  function Quoted(arg: string): string {
    if arg == [] then ['"', '"']
    else if !NeedsQuotes(arg) then arg
    else ['"'] + Emit(arg, 0)
  }

  method QuoteWindowsArg(arg: string) returns (out: string)
    ensures out == Quoted(arg)
  {
    if arg == [] { return ['"', '"']; }
    var need := false;
    var j := 0;
    while j < |arg| && !need
      invariant 0 <= j <= |arg|
      invariant need ==> NeedsQuotes(arg)
      invariant !need ==> forall i :: 0 <= i < j ==> !Blank(arg[i]) && arg[i] != '"'
    {
      need := Blank(arg[j]) || arg[j] == '"';
      j := j + 1;
    }
    if !need { return arg; }
    out := ['"'];
    var backslashes := 0;
    for i := 0 to |arg|
      invariant 0 <= backslashes < U32
      invariant Quoted(arg) == out + Emit(arg[i..], backslashes)
    {
      assert arg[i..][0] == arg[i] && arg[i..][1..] == arg[i+1..];
      if arg[i] == '\\' {
        backslashes := Wrap32(backslashes + 1);
      } else if arg[i] == '"' {
        out := out + Rep(Wrap32(2 * backslashes + 1)) + ['"'];
        backslashes := 0;
      } else {
        out := out + Rep(backslashes) + [arg[i]];
        backslashes := 0;
      }
    }
    out := out + Rep(Wrap32(2 * backslashes)) + ['"'];
  }

  function Line(command: seq<string>): string {
    if command == [] then []
    else if |command| == 1 then Quoted(command[0])
    else Quoted(command[0]) + [' '] + Line(command[1..])
  }

  method MakeWindowsCommandLine(command: seq<string>) returns (out: string)
    ensures out == Line(command)
  {
    out := [];
    for i := 0 to |command|
      invariant out == Line(command[..i])
    {
      LineSnoc(command[..i], command[i]);
      if out != [] { out := out + [' ']; }
      var q := QuoteWindowsArg(command[i]);
      out := out + q;
      assert command[..i+1] == command[..i] + [command[i]];
    }
    assert command[..|command|] == command;
  }

  lemma {:induction false} LineSnoc(command: seq<string>, arg: string)
    ensures Line(command + [arg]) == (if command == [] then Quoted(arg) else Line(command) + [' '] + Quoted(arg))
    ensures command != [] ==> Line(command) != []
  {
    hide Quoted;
    if command == [] {
      assert command + [arg] == [arg];
    } else {
      var tail := command[1..];
      assert (command + [arg])[0] == command[0] && (command + [arg])[1..] == tail + [arg];
      LineSnoc(tail, arg);
      QuotedNonempty(command[0]);
      if tail != [] { Joined(Quoted(command[0]), Line(tail), Quoted(arg)); }
    }
  }

  lemma Joined(a: string, b: string, c: string)
    ensures a + [' '] + (b + [' '] + c) == a + [' '] + b + [' '] + c
  {
  }

  lemma QuotedNonempty(arg: string)
    ensures Quoted(arg) != []
  {
    EmitNonempty(arg, 0);
  }

  lemma {:induction false} EmitNonempty(s: string, b: nat)
    ensures Emit(s, b) != []
  {
    if s != [] && s[0] == '\\' { EmitNonempty(s[1..], Wrap32(b + 1)); }
  }

  // ---- the reader ----

  function Lead(s: string): (n: nat)
    ensures n <= |s|
  {
    if s != [] && s[0] == '\\' then 1 + Lead(s[1..]) else 0
  }

  datatype Parsed = Parsed(arg: string, rest: string)

  function Prepend(p: string, r: Parsed): Parsed {
    Parsed(p + r.arg, r.rest)
  }

  // One argument, starting inside or outside a quoted part. Backslashes are literal
  // unless a double quote follows; then each pair is one backslash, and the quote is
  // literal after an odd run, a delimiter after an even one. Inside a quoted part two
  // quotes in a row are one literal quote.
  function ReadArg(s: string, quoted: bool): (r: Parsed)
    ensures |r.rest| <= |s| && (s != [] && !(Blank(s[0]) && !quoted) ==> |r.rest| < |s|)
    decreases |s|
  {
    var n := Lead(s);
    var t := s[n..];
    if t == [] then Parsed(Rep(n), [])
    else if t[0] == '"' then
      if n % 2 == 1 then Prepend(Rep(n / 2) + ['"'], ReadArg(t[1..], quoted))
      else if quoted && |t| > 1 && t[1] == '"' then Prepend(Rep(n / 2) + ['"'], ReadArg(t[2..], quoted))
      else Prepend(Rep(n / 2), ReadArg(t[1..], !quoted))
    else if !quoted && Blank(t[0]) then Parsed(Rep(n), t)
    else Prepend(Rep(n) + [t[0]], ReadArg(t[1..], quoted))
  }

  function ReadLine(s: string): seq<string>
    decreases |s|
  {
    if s == [] then []
    else if Blank(s[0]) then ReadLine(s[1..])
    else
      var p := ReadArg(s, false);
      [p.arg] + ReadLine(p.rest)
  }

  // The line as a C string: it ends at the first NUL.
  function CString(s: string): string {
    if s == [] || s[0] == '\0' then [] else [s[0]] + CString(s[1..])
  }

  function ArgsOf(line: string): seq<string> { ReadLine(CString(line)) }

  // ---- what comes back ----

  // The quoting loop's output as the reader sees it: runs of backslashes before a quote
  // and at the end come back modulo 2^31, other runs modulo 2^32.
  function Shrunk(s: string, b: nat): string {
    if s == [] then Rep(Low31(b))
    else if s[0] == '\\' then Shrunk(s[1..], Wrap32(b + 1))
    else if s[0] == '"' then Rep(Low31(b)) + ['"'] + Shrunk(s[1..], 0)
    else Rep(b) + [s[0]] + Shrunk(s[1..], 0)
  }

  function Returned(arg: string): string {
    if NeedsQuotes(arg) then Shrunk(arg, 0) else arg
  }

  predicate EndsArg(rest: string) { rest == [] || Blank(rest[0]) }

  lemma {:induction false} LeadRep(n: nat, t: string)
    requires t == [] || t[0] != '\\'
    ensures Lead(Rep(n) + t) == n && (Rep(n) + t)[n..] == t
  {
    if n == 0 {
      assert Rep(0) + t == t;
    } else {
      assert (Rep(n) + t)[0] == '\\' && (Rep(n) + t)[1..] == Rep(n - 1) + t;
      LeadRep(n - 1, t);
    }
  }

  lemma HalfOfWrapped(b: nat)
    ensures Wrap32(2 * b) % 2 == 0 && Wrap32(2 * b) / 2 == Low31(b)
    ensures Wrap32(2 * b + 1) % 2 == 1 && Wrap32(2 * b + 1) / 2 == Low31(b)
  {
    var q, r := b / HALF, b % HALF;
    assert 2 * b == q * U32 + 2 * r;
    Residue(2 * b, q, 2 * r, U32);
    Residue(2 * b + 1, q, 2 * r + 1, U32);
  }

  // Reading past a run of n backslashes: before a quote, and before any other character.
  lemma ReadQuoteRun(n: nat, t: string, quoted: bool)
    requires t != [] && t[0] == '"'
    ensures ReadArg(Rep(n) + t, quoted) ==
      if n % 2 == 1 then Prepend(Rep(n / 2) + ['"'], ReadArg(t[1..], quoted))
      else if quoted && |t| > 1 && t[1] == '"' then Prepend(Rep(n / 2) + ['"'], ReadArg(t[2..], quoted))
      else Prepend(Rep(n / 2), ReadArg(t[1..], !quoted))
  {
    LeadRep(n, t);
  }

  lemma ReadOtherRun(n: nat, t: string, quoted: bool)
    requires t != [] && t[0] != '\\' && t[0] != '"' && (quoted || !Blank(t[0]))
    ensures ReadArg(Rep(n) + t, quoted) == Prepend(Rep(n) + [t[0]], ReadArg(t[1..], quoted))
  {
    LeadRep(n, t);
  }

  lemma ReadEnd(n: nat, rest: string)
    requires EndsArg(rest)
    ensures ReadArg(Rep(n) + rest, false) == Parsed(Rep(n), rest)
  {
    LeadRep(n, rest);
  }

  lemma ReadStop(rest: string)
    requires EndsArg(rest)
    ensures ReadArg(rest, false) == Parsed([], rest)
  {
    assert Lead(rest) == 0 && rest[0..] == rest && Rep(0) == [];
  }

  lemma NoRun(t: string)
    ensures Rep(0) + t == t && t + Rep(0) == t
  {
  }

  // The quote that closes an argument after n doubled backslashes.
  lemma CloseQuote(n: nat, rest: string)
    requires EndsArg(rest) && n % 2 == 0
    ensures ReadArg(Rep(n) + (['"'] + rest), true) == Parsed(Rep(n / 2), rest)
  {
    hide ReadArg;
    var t := ['"'] + rest;
    assert t[1..] == rest && (|t| > 1 ==> t[1] == rest[0]);
    ReadQuoteRun(n, t, true);
    ReadStop(rest);
    assert ReadArg(Rep(n) + t, true) == Prepend(Rep(n / 2), ReadArg(rest, false));
  }

  lemma {:induction false} ReadEmitted(s: string, b: nat, rest: string)
    requires b < U32 && EndsArg(rest)
    ensures ReadArg(Emit(s, b) + rest, true) == Parsed(Shrunk(s, b), rest)
  {
    hide Wrap32, Low31, ReadArg, EndsArg;
    HalfOfWrapped(b);
    if s == [] {
      assert Emit(s, b) + rest == Rep(Wrap32(2 * b)) + (['"'] + rest);
      CloseQuote(Wrap32(2 * b), rest);
    } else if s[0] == '\\' {
      ReadEmitted(s[1..], Wrap32(b + 1), rest);
    } else {
      var n := if s[0] == '"' then Wrap32(2 * b + 1) else b;
      var t := [s[0]] + (Emit(s[1..], 0) + rest);
      assert Emit(s, b) + rest == Rep(n) + t;
      assert t[1..] == Emit(s[1..], 0) + rest;
      if s[0] == '"' { ReadQuoteRun(n, t, true); } else { ReadOtherRun(n, t, true); }
      ReadEmitted(s[1..], 0, rest);
    }
  }

  lemma {:induction false} LeadIsRep(s: string)
    ensures s[..Lead(s)] == Rep(Lead(s)) && (Lead(s) < |s| ==> s[Lead(s)] != '\\')
  {
    if s != [] && s[0] == '\\' {
      LeadIsRep(s[1..]);
      assert s[..Lead(s)] == [s[0]] + s[1..][..Lead(s[1..])];
    }
  }

  lemma PlainTail(arg: string, k: nat)
    requires !NeedsQuotes(arg) && k <= |arg|
    ensures !NeedsQuotes(arg[k..])
    ensures forall i :: 0 <= i < |arg| ==> !Blank(arg[i]) && arg[i] != '"'
  {
    assert forall i :: 0 <= i < |arg| - k ==> arg[k..][i] == arg[k + i];
  }

  // An argument written as it is reads back as it is.
  lemma {:induction false} ReadPlain(arg: string, rest: string)
    requires !NeedsQuotes(arg) && EndsArg(rest)
    ensures ReadArg(arg + rest, false) == Parsed(arg, rest)
    decreases |arg|
  {
    hide ReadArg, EndsArg, NeedsQuotes;
    var n := Lead(arg);
    LeadIsRep(arg);
    if n == |arg| {
      ReadEnd(n, rest);
      assert arg == arg[..n];
    } else {
      var t := [arg[n]] + (arg[n+1..] + rest);
      assert arg == arg[..n] + [arg[n]] + arg[n+1..];
      assert arg + rest == Rep(n) + t;
      PlainTail(arg, n + 1);
      ReadOtherRun(n, t, false);
      assert t[1..] == arg[n+1..] + rest;
      ReadPlain(arg[n+1..], rest);
    }
  }

  lemma ReadEmptyQuotes(rest: string)
    requires EndsArg(rest)
    ensures ReadArg(['"', '"'] + rest, false) == Parsed([], rest)
  {
    hide ReadArg, EndsArg;
    assert ['"', '"'] + rest == ['"'] + (['"'] + rest);
    OpenQuote(['"'] + rest);
    CloseQuote(0, rest);
    NoRun(['"'] + rest);
  }

  lemma ReadQuoted(arg: string, rest: string)
    requires EndsArg(rest)
    ensures Quoted(arg) != [] && !Blank(Quoted(arg)[0])
    ensures ReadArg(Quoted(arg) + rest, false) == Parsed(Returned(arg), rest)
  {
    hide ReadArg, Emit, Shrunk, EndsArg;
    if arg == [] {
      ReadEmptyQuotes(rest);
    } else if !NeedsQuotes(arg) {
      PlainTail(arg, 0);
      ReadPlain(arg, rest);
    } else {
      OpenQuote(Emit(arg, 0) + rest);
      assert Quoted(arg) + rest == ['"'] + (Emit(arg, 0) + rest);
      ReadEmitted(arg, 0, rest);
    }
  }

  lemma OpenQuote(t: string)
    ensures ReadArg(['"'] + t, false) == ReadArg(t, true)
  {
    hide ReadArg;
    var s := ['"'] + t;
    assert s[1..] == t;
    ReadQuoteRun(0, s, false);
    NoRun(s);
    NoRun(ReadArg(t, true).arg);
  }

  // Reading the produced line gives back every argument, shrunk only in its overlong
  // runs of backslashes.
  lemma {:induction false} ReadsBack(command: seq<string>)
    ensures ReadLine(Line(command)) == seq(|command|, i requires 0 <= i < |command| => Returned(command[i]))
  {
    hide ReadArg, Quoted, Returned;
    if command != [] {
      var tail := command[1..];
      var rest := if tail == [] then [] else [' '] + Line(tail);
      ReadQuoted(command[0], rest);
      assert Line(command) == Quoted(command[0]) + rest;
      ReadsBack(tail);
      if tail != [] { assert rest[1..] == Line(tail); }
    }
  }

  predicate NulFree(s: string) {
    forall i :: 0 <= i < |s| ==> s[i] != '\0'
  }

  lemma {:induction false} CStringWhole(s: string)
    requires NulFree(s)
    ensures CString(s) == s
  {
    if s != [] {
      assert NulFree(s[1..]);
      CStringWhole(s[1..]);
    }
  }

  lemma {:induction false} EmitNulFree(s: string, b: nat)
    requires NulFree(s)
    ensures NulFree(Emit(s, b))
  {
    if s != [] {
      assert NulFree(s[1..]);
      EmitNulFree(s[1..], if s[0] == '\\' then Wrap32(b + 1) else 0);
    }
  }

  lemma {:induction false} LineNulFree(command: seq<string>)
    requires forall i :: 0 <= i < |command| ==> NulFree(command[i])
    ensures NulFree(Line(command))
  {
    if command != [] {
      assert NulFree(command[0]);
      EmitNulFree(command[0], 0);
      LineNulFree(command[1..]);
    }
  }

  // ---- exactly which arguments survive ----

  // No run of backslashes before a quote or at the end reaches 2^31, no other run 2^32.
  predicate Fits(s: string, b: nat) {
    if s == [] then b < HALF
    else if s[0] == '\\' then Fits(s[1..], b + 1)
    else if s[0] == '"' then b < HALF && Fits(s[1..], 0)
    else b < U32 && Fits(s[1..], 0)
  }

  lemma Wraps(b: nat)
    ensures Wrap32(Wrap32(b) + 1) == Wrap32(b + 1) && Low31(Wrap32(b)) == Low31(b)
    ensures Wrap32(b) <= b && (Wrap32(b) == b <==> b < U32)
    ensures Low31(b) <= b && (Low31(b) == b <==> b < HALF)
  {
    var q, c := b / U32, b % U32;
    AddMultiple(q, c + 1, U32);
    AddMultiple(2 * q, c, HALF);
  }

  lemma {:induction false} ShrunkWhenFits(s: string, b: nat)
    requires Fits(s, b)
    ensures Shrunk(s, Wrap32(b)) == Rep(b) + s
  {
    hide Wrap32, Low31;
    Wraps(b);
    Wraps(0);
    if s == [] {
      assert Rep(b) + s == Rep(b);
    } else if s[0] == '\\' {
      ShrunkWhenFits(s[1..], b + 1);
      assert Rep(b + 1) + s[1..] == Rep(b) + s;
    } else {
      ShrunkWhenFits(s[1..], 0);
      assert Rep(0) + s[1..] == s[1..];
      assert Rep(b) + [s[0]] + s[1..] == Rep(b) + s;
    }
  }

  lemma {:induction false} ShrunkLength(s: string, b: nat)
    ensures |Shrunk(s, Wrap32(b))| <= b + |s|
    ensures !Fits(s, b) ==> |Shrunk(s, Wrap32(b))| < b + |s|
  {
    hide Wrap32, Low31;
    Wraps(b);
    Wraps(0);
    if s != [] { ShrunkLength(s[1..], if s[0] == '\\' then b + 1 else 0); }
  }

  predicate Survives(arg: string) {
    NeedsQuotes(arg) ==> Fits(arg, 0)
  }

  // The round trip: for every list of NUL-free strings the parsed command line is the
  // original list if and only if no argument that is quoted has an overlong run.
  lemma RoundTrip(command: seq<string>)
    requires forall i :: 0 <= i < |command| ==> NulFree(command[i])
    ensures ArgsOf(Line(command)) == command <==> forall i :: 0 <= i < |command| ==> Survives(command[i])
  {
    LineNulFree(command);
    CStringWhole(Line(command));
    ReadsBack(command);
    var back := seq(|command|, i requires 0 <= i < |command| => Returned(command[i]));
    forall i | 0 <= i < |command| ensures back[i] == command[i] <==> Survives(command[i]) {
      Wraps(0);
      ShrunkLength(command[i], 0);
      if Fits(command[i], 0) { ShrunkWhenFits(command[i], 0); }
      assert Rep(0) + command[i] == command[i];
    }
    if back == command {
      forall i | 0 <= i < |command| ensures Survives(command[i]) { assert back[i] == command[i]; }
    }
  }

  // In particular every argument shorter than 2^31 characters survives.
  lemma {:induction false} ShortFits(s: string, b: nat)
    requires b + |s| < HALF
    ensures Fits(s, b)
  {
    if s != [] { ShortFits(s[1..], if s[0] == '\\' then b + 1 else 0); }
  }
}
