/**
 Quoting of arguments for a Windows command line, and the parsing rules of
 CommandLineToArgvW that a started program applies to it.
 */
module WindowsArgs {
  function Slashes(n: nat): string { seq(n, _ => '\\') }

  // ----- Quoting -----

  predicate AsciiWhitespace(c: char) { c == ' ' || c == '\t' || c == '\n' || c == '\r' || c == 12 as char }

  /** An argument that can stand unquoted. */
  predicate Bare(v: string) {
    v != [] && forall i :: 0 <= i < |v| ==> v[i] != '"' && !AsciiWhitespace(v[i])
  }

  /** The rest of a quoted argument, after `slashes` backslashes that are still to be written. */
  function Escaped(v: string, slashes: nat): string
    decreases |v|
  {
    if v == [] then Slashes(2 * slashes) + ['"']
    else if v[0] == '\\' then Escaped(v[1..], slashes + 1)
    else if v[0] == '"' then Slashes(2 * slashes + 1) + ['"'] + Escaped(v[1..], 0)
    else Slashes(slashes) + [v[0]] + Escaped(v[1..], 0)
  }

  function Quoted(v: string): string { if Bare(v) then v else ['"'] + Escaped(v, 0) }

  method QuoteArgument(v: string) returns (r: string)
    ensures r == Quoted(v)
  {
    var bare := v != [];
    for i := 0 to |v|
      invariant bare <==> v != [] && forall k :: 0 <= k < i ==> v[k] != '"' && !AsciiWhitespace(v[k])
    {
      if v[i] == '"' || AsciiWhitespace(v[i]) {
        bare := false;
      }
    }
    if bare {
      return v;
    }
    r := ['"'];
    var backslashes := 0;
    assert v[0..] == v;
    for i := 0 to |v|
      invariant r + Escaped(v[i..], backslashes) == ['"'] + Escaped(v, 0)
    {
      assert v[i..][1..] == v[i + 1..];
      if v[i] == '\\' {
        backslashes := backslashes + 1;
      } else {
        var count := if v[i] == '"' then backslashes * 2 + 1 else backslashes;
        ghost var rest := Escaped(v[i + 1..], 0);
        assert r + (Slashes(count) + [v[i]] + rest) == r + Slashes(count) + [v[i]] + rest;
        r := r + Slashes(count) + [v[i]];
        backslashes := 0;
      }
    }
    r := r + Slashes(2 * backslashes) + ['"'];
  }

  /** The quoted arguments joined with single spaces. */
  function Joined(args: seq<string>): string {
    if args == [] then [] else if |args| == 1 then Quoted(args[0]) else Quoted(args[0]) + [' '] + Joined(args[1..])
  }

  // ----- Parsing -----

  predicate Separator(c: char) { c == ' ' || c == '\t' }

  function Prepend(text: string, r: (string, string)): (string, string) { (text + r.0, r.1) }

  /**
   One argument, with `slashes` backslashes just read, inside quotes or not; and what
   follows its separator. `doubled` selects the later rule by which two quotes inside
   a quoted part stand for one.
   */
  function ParseOne(s: string, quoted: bool, slashes: nat, doubled: bool): (r: (string, string))
    ensures |r.1| <= |s| && (s != [] && !Separator(s[0]) ==> |r.1| < |s|)
    decreases |s|
  {
    if s == [] then (Slashes(slashes), [])
    else if s[0] == '\\' then ParseOne(s[1..], quoted, slashes + 1, doubled)
    else if s[0] == '"' then
      if slashes % 2 == 1 then Prepend(Slashes(slashes / 2) + ['"'], ParseOne(s[1..], quoted, 0, doubled))
      else if quoted && doubled && |s| > 1 && s[1] == '"' then
        Prepend(Slashes(slashes / 2) + ['"'], ParseOne(s[2..], quoted, 0, doubled))
      else Prepend(Slashes(slashes / 2), ParseOne(s[1..], !quoted, 0, doubled))
    else if !quoted && Separator(s[0]) then (Slashes(slashes), s[1..])
    else Prepend(Slashes(slashes) + [s[0]], ParseOne(s[1..], quoted, 0, doubled))
  }

  /** The arguments of a command line, after the program name. */
  function Parse(s: string, doubled: bool): seq<string>
    decreases |s|
  {
    if s == [] then []
    else if Separator(s[0]) then Parse(s[1..], doubled)
    else var one := ParseOne(s, false, 0, doubled); [one.0] + Parse(one.1, doubled)
  }

  /** The system sees a command line up to its first NUL. */
  function UpToNul(s: string): string {
    if s == [] || s[0] == '\0' then [] else [s[0]] + UpToNul(s[1..])
  }

  // ----- Quoting is inverted by parsing -----

  lemma {:induction false} SlashesAreCounted(n: nat, t: string, quoted: bool, slashes: nat, doubled: bool)
    ensures ParseOne(Slashes(n) + t, quoted, slashes, doubled) == ParseOne(t, quoted, slashes + n, doubled)
    decreases n
  {
    if n == 0 {
      assert Slashes(0) + t == t;
    } else {
      assert Slashes(n) + t == ['\\'] + (Slashes(n - 1) + t);
      assert (['\\'] + (Slashes(n - 1) + t))[1..] == Slashes(n - 1) + t;
      SlashesAreCounted(n - 1, t, quoted, slashes + 1, doubled);
    }
  }

  /** The end of the line or a space. */
  predicate Ends(rest: string) { rest == [] || rest[0] == ' ' }

  function AfterSpace(rest: string): string { if rest == [] then [] else rest[1..] }

  lemma EscapedEnd(slashes: nat, rest: string, doubled: bool)
    requires Ends(rest)
    ensures ParseOne(Escaped([], slashes) + rest, true, 0, doubled) == (Slashes(slashes), AfterSpace(rest))
  {
    var t := ['"'] + rest;
    assert Escaped([], slashes) + rest == Slashes(2 * slashes) + t;
    SlashesAreCounted(2 * slashes, t, true, 0, doubled);
    assert t[1..] == rest && Slashes(0) == [];
    assert ParseOne(rest, false, 0, doubled) == ([], AfterSpace(rest));
    assert t != [] && ParseOne(t, true, 2 * slashes, doubled) == Prepend(Slashes(slashes), ([], AfterSpace(rest)));
    assert Slashes(slashes) + [] == Slashes(slashes);
  }

  lemma EscapedQuote(slashes: nat, tail: string, doubled: bool)
    ensures ParseOne(Slashes(2 * slashes + 1) + ['"'] + tail, true, 0, doubled)
      == Prepend(Slashes(slashes) + ['"'], ParseOne(tail, true, 0, doubled))
  {
    var t := ['"'] + tail;
    assert Slashes(2 * slashes + 1) + ['"'] + tail == Slashes(2 * slashes + 1) + t;
    SlashesAreCounted(2 * slashes + 1, t, true, 0, doubled);
    assert t[1..] == tail;
  }

  lemma EscapedOther(slashes: nat, c: char, tail: string, doubled: bool)
    requires c != '"' && c != '\\'
    ensures ParseOne(Slashes(slashes) + [c] + tail, true, 0, doubled)
      == Prepend(Slashes(slashes) + [c], ParseOne(tail, true, 0, doubled))
  {
    var t := [c] + tail;
    assert Slashes(slashes) + [c] + tail == Slashes(slashes) + t;
    SlashesAreCounted(slashes, t, true, 0, doubled);
    assert t[1..] == tail;
  }

  lemma {:induction false} EscapedIsParsed(v: string, slashes: nat, rest: string, doubled: bool)
    requires Ends(rest)
    ensures ParseOne(Escaped(v, slashes) + rest, true, 0, doubled) == (Slashes(slashes) + v, AfterSpace(rest))
    decreases |v|
  {
    hide ParseOne;
    if v == [] {
      EscapedEnd(slashes, rest, doubled);
      assert Slashes(slashes) + v == Slashes(slashes);
    } else {
      assert v == [v[0]] + v[1..];
      if v[0] == '\\' {
        EscapedIsParsed(v[1..], slashes + 1, rest, doubled);
        assert Slashes(slashes + 1) + v[1..] == Slashes(slashes) + v;
      } else {
        EscapedIsParsed(v[1..], 0, rest, doubled);
        var tail := Escaped(v[1..], 0) + rest;
        assert Slashes(0) + v[1..] == v[1..];
        if v[0] == '"' {
          EscapedQuote(slashes, tail, doubled);
          assert Escaped(v, slashes) + rest == Slashes(2 * slashes + 1) + ['"'] + tail;
        } else {
          EscapedOther(slashes, v[0], tail, doubled);
          assert Escaped(v, slashes) + rest == Slashes(slashes) + [v[0]] + tail;
        }
        assert Slashes(slashes) + [v[0]] + v[1..] == Slashes(slashes) + v;
      }
    }
  }

  /** No quote and no separator. */
  predicate Plain(v: string) { forall i :: 0 <= i < |v| ==> v[i] != '"' && !Separator(v[i]) }

  lemma {:induction false} PlainIsParsed(v: string, slashes: nat, rest: string, doubled: bool)
    requires Plain(v) && Ends(rest)
    ensures ParseOne(v + rest, false, slashes, doubled) == (Slashes(slashes) + v, AfterSpace(rest))
    decreases |v|
  {
    if v == [] {
      assert v + rest == rest && Slashes(slashes) + v == Slashes(slashes);
    } else {
      assert (v + rest)[1..] == v[1..] + rest;
      if v[0] == '\\' {
        PlainIsParsed(v[1..], slashes + 1, rest, doubled);
        assert Slashes(slashes + 1) + v[1..] == Slashes(slashes) + v;
      } else {
        PlainIsParsed(v[1..], 0, rest, doubled);
        assert Slashes(0) + v[1..] == v[1..];
        assert Slashes(slashes) + [v[0]] + v[1..] == Slashes(slashes) + v;
      }
    }
  }

  lemma OpeningQuote(tail: string, doubled: bool)
    ensures ParseOne(['"'] + tail, false, 0, doubled) == ParseOne(tail, true, 0, doubled)
  {
    var r := ParseOne(tail, true, 0, doubled);
    assert (['"'] + tail)[1..] == tail;
    assert Slashes(0) + r.0 == r.0;
  }

  lemma QuotedIsParsed(v: string, rest: string, doubled: bool)
    requires Ends(rest)
    ensures ParseOne(Quoted(v) + rest, false, 0, doubled) == (v, AfterSpace(rest))
    ensures Quoted(v) != [] && !Separator(Quoted(v)[0])
  {
    hide ParseOne, Escaped;
    assert Slashes(0) + v == v;
    if Bare(v) {
      PlainIsParsed(v, 0, rest, doubled);
    } else {
      EscapedIsParsed(v, 0, rest, doubled);
      OpeningQuote(Escaped(v, 0) + rest, doubled);
      assert Quoted(v) + rest == ['"'] + (Escaped(v, 0) + rest);
    }
  }

  /** Every list of arguments is parsed back from its command line, under either rule. */
  lemma {:induction false} JoinedIsParsed(args: seq<string>, doubled: bool)
    ensures Parse(Joined(args), doubled) == args
    decreases |args|
  {
    hide ParseOne, Quoted;
    if args != [] {
      var rest := if |args| == 1 then [] else [' '] + Joined(args[1..]);
      QuotedIsParsed(args[0], rest, doubled);
      assert Joined(args) == Quoted(args[0]) + rest;
      assert AfterSpace(rest) == Joined(args[1..]);
      JoinedIsParsed(args[1..], doubled);
    }
  }

  // ----- What a NUL does -----

  predicate NulFree(s: string) { '\0' !in s }

  predicate AllNulFree(args: seq<string>) { forall i :: 0 <= i < |args| ==> NulFree(args[i]) }

  lemma {:induction false} UpToNulIsFree(s: string)
    ensures NulFree(UpToNul(s)) && (NulFree(s) ==> UpToNul(s) == s)
    decreases |s|
  {
    if s != [] && s[0] != '\0' {
      UpToNulIsFree(s[1..]);
      assert s == [s[0]] + s[1..];
    }
  }

  lemma {:induction false} ParseOneIsFree(s: string, quoted: bool, slashes: nat, doubled: bool)
    requires NulFree(s)
    ensures NulFree(ParseOne(s, quoted, slashes, doubled).0) && NulFree(ParseOne(s, quoted, slashes, doubled).1)
    decreases |s|
  {
    if s != [] {
      assert s[0] in s && NulFree(s[1..]);
      if s[0] == '\\' {
        ParseOneIsFree(s[1..], quoted, slashes + 1, doubled);
      } else if s[0] == '"' {
        if slashes % 2 == 1 {
          ParseOneIsFree(s[1..], quoted, 0, doubled);
        } else if quoted && doubled && |s| > 1 && s[1] == '"' {
          ParseOneIsFree(s[2..], quoted, 0, doubled);
        } else {
          ParseOneIsFree(s[1..], !quoted, 0, doubled);
        }
      } else if quoted || !Separator(s[0]) {
        ParseOneIsFree(s[1..], quoted, 0, doubled);
      }
    }
  }

  lemma {:induction false} ParseIsFree(s: string, doubled: bool)
    requires NulFree(s)
    ensures AllNulFree(Parse(s, doubled))
    decreases |s|
  {
    if s != [] {
      if Separator(s[0]) {
        ParseIsFree(s[1..], doubled);
      } else {
        ParseOneIsFree(s, false, 0, doubled);
        ParseIsFree(ParseOne(s, false, 0, doubled).1, doubled);
      }
    }
  }

  lemma {:induction false} EscapedIsFree(v: string, slashes: nat)
    requires NulFree(v)
    ensures NulFree(Escaped(v, slashes))
    decreases |v|
  {
    if v != [] {
      assert v[0] in v && NulFree(v[1..]);
      if v[0] == '\\' {
        EscapedIsFree(v[1..], slashes + 1);
      } else {
        EscapedIsFree(v[1..], 0);
      }
    }
  }

  lemma {:induction false} JoinedIsFree(args: seq<string>)
    requires AllNulFree(args)
    ensures NulFree(Joined(args))
    decreases |args|
  {
    if args != [] {
      EscapedIsFree(args[0], 0);
      assert NulFree(Quoted(args[0]));
      JoinedIsFree(args[1..]);
    }
  }

  /** The quoted arguments are read back exactly when none of them holds a NUL. */
  lemma ArgumentsArriveIffNulFree(args: seq<string>, doubled: bool)
    ensures Parse(UpToNul(Joined(args)), doubled) == args <==> AllNulFree(args)
  {
    UpToNulIsFree(Joined(args));
    if AllNulFree(args) {
      JoinedIsFree(args);
      JoinedIsParsed(args, doubled);
    }
    ParseIsFree(UpToNul(Joined(args)), doubled);
  }

  // ----- What the launcher does first -----

  const VERBATIM := "\\\\?\\"
  const VERBATIM_UNC := "\\\\?\\UNC\\"

  /** Verbatim path prefixes are taken off before an argument is quoted. */
  function Native(v: string): string {
    if VERBATIM_UNC <= v then "\\\\" + v[|VERBATIM_UNC|..]
    else if VERBATIM <= v then v[|VERBATIM|..]
    else v
  }

  function Natives(args: seq<string>): seq<string> { seq(|args|, i requires 0 <= i < |args| => Native(args[i])) }

  predicate NoVerbatim(args: seq<string>) { forall i :: 0 <= i < |args| ==> !(VERBATIM <= args[i]) }

  lemma NativeIsSameIff(v: string)
    ensures Native(v) == v <==> !(VERBATIM <= v)
    ensures NulFree(Native(v)) <==> NulFree(v)
  {
    assert |VERBATIM| == 4 && |VERBATIM_UNC| == 8 && VERBATIM_UNC[..4] == VERBATIM;
    if VERBATIM_UNC <= v {
      assert v == VERBATIM_UNC + v[8..] && VERBATIM <= v;
    } else if VERBATIM <= v {
      assert v == VERBATIM + v[4..];
    }
  }

  /** A started program gets its arguments back exactly when none of them holds a NUL or
      begins with a verbatim prefix. */
  lemma LaunchedArgumentsArriveIff(args: seq<string>, doubled: bool)
    ensures Parse(UpToNul(Joined(Natives(args))), doubled) == args <==> AllNulFree(args) && NoVerbatim(args)
  {
    hide Native, Joined, Parse, UpToNul;
    var natives := Natives(args);
    forall i | 0 <= i < |args|
      ensures natives[i] == args[i] <==> !(VERBATIM <= args[i])
      ensures NulFree(natives[i]) <==> NulFree(args[i])
    {
      NativeIsSameIff(args[i]);
    }
    ArgumentsArriveIffNulFree(natives, doubled);
    var parsed := Parse(UpToNul(Joined(natives)), doubled);
    ParsedIsFree(Joined(natives), doubled);
    if AllNulFree(args) {
      assert parsed == natives;
      if NoVerbatim(args) {
        assert natives == args;
      }
    }
  }

  lemma ParsedIsFree(line: string, doubled: bool)
    ensures AllNulFree(Parse(UpToNul(line), doubled))
  {
    UpToNulIsFree(line);
    ParseIsFree(UpToNul(line), doubled);
  }

  lemma {:induction false} EscapedIsLonger(v: string, slashes: nat)
    ensures |Escaped(v, slashes)| >= |v| + slashes + 1
    decreases |v|
  {
    if v != [] {
      EscapedIsLonger(v[1..], if v[0] == '\\' then slashes + 1 else 0);
    }
  }

  /** An argument is passed on as it is exactly when it is not empty and has no quote and no
      white space; any other is put in quotes. */
  lemma LeftAloneIff(v: string)
    ensures Quoted(v) == v <==> v != [] && forall ch :: ch in v ==> ch !in "\" \t\n\r" && ch != 12 as char
    ensures Quoted(v) != v ==> |Quoted(v)| >= |v| + 2 && Quoted(v)[0] == '"' && Quoted(v)[|Quoted(v)| - 1] == '"'
  {
    EscapedIsLonger(v, 0);
    EscapedEndsQuoted(v, 0);
    if v != [] && forall ch :: ch in v ==> ch !in "\" \t\n\r" && ch != 12 as char {
      forall i | 0 <= i < |v| ensures v[i] != '"' && !AsciiWhitespace(v[i]) {
        assert v[i] in v;
      }
    }
  }

  lemma {:induction false} EscapedEndsQuoted(v: string, slashes: nat)
    ensures Escaped(v, slashes) != [] && Escaped(v, slashes)[|Escaped(v, slashes)| - 1] == '"'
    decreases |v|
  {
    if v != [] {
      EscapedEndsQuoted(v[1..], if v[0] == '\\' then slashes + 1 else 0);
    }
  }
}
