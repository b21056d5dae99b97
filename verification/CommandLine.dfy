/**
 Argument quoting of agent/ldac_agent.cpp, and the way Windows splits a command
 line again: before a quote 2n backslashes stand for n and the quote delimits,
 2n + 1 stand for n and the quote is itself; elsewhere backslashes are literal.
 */
module CommandLine {

  const QUOTE: char := '\"'
  const BACKSLASH: char := '\\'

  predicate IsBlank(c: char) {
    c == ' ' || c == '\t'
  }

  predicate NeedsQuotes(argument: string) {
    exists i :: 0 <= i < |argument| && (IsBlank(argument[i]) || argument[i] == QUOTE)
  }

  function Slashes(count: nat): (r: string)
    ensures |r| == count
  {
    seq(count, _ => BACKSLASH)
  }

  lemma SlashesJoin(first: nat, second: nat)
    ensures Slashes(first) + Slashes(second) == Slashes(first + second)
  {
  }

  // --------------------------------------------------------------- quoting

  /** The inside of a quoted argument from here on, with some backslashes still held back. */
  function Escaped(argument: string, held: nat): string
    decreases argument
  {
    if argument == "" then Slashes(2 * held) + [QUOTE]
    else if argument[0] == BACKSLASH then Escaped(argument[1..], held + 1)
    else if argument[0] == QUOTE then Slashes(2 * held + 1) + [QUOTE] + Escaped(argument[1..], 0)
    else Slashes(held) + [argument[0]] + Escaped(argument[1..], 0)
  }

  function Quoted(argument: string): string {
    if argument == "" then [QUOTE, QUOTE]
    else if !NeedsQuotes(argument) then argument
    else [QUOTE] + Escaped(argument, 0)
  }

  function Joined(arguments: seq<string>): string {
    if arguments == [] then ""
    else if |arguments| == 1 then Quoted(arguments[0])
    else Quoted(arguments[0]) + " " + Joined(arguments[1..])
  }

  /** An argument is left as it is exactly if it can be: if it is not empty and holds neither blank nor quote. */
  lemma PlainStaysPlain(argument: string)
    ensures Quoted(argument) == argument <==>
            && argument != ""
            && forall i :: 0 <= i < |argument| ==> argument[i] != ' ' && argument[i] != '\t' && argument[i] != '\"'
  {
    if argument != "" && NeedsQuotes(argument) {
      EscapedIsLonger(argument, 0);
    }
  }

  lemma {:induction false} EscapedIsLonger(argument: string, held: nat)
    ensures |Escaped(argument, held)| >= |argument| + held + 1
    decreases argument
  {
    if argument != "" {
      EscapedIsLonger(argument[1..], if argument[0] == BACKSLASH then held + 1 else 0);
    }
  }

  method HasBlankOrQuote(argument: string) returns (found: bool)
    ensures found == NeedsQuotes(argument)
  {
    for i := 0 to |argument|
      invariant forall k :: 0 <= k < i ==> !IsBlank(argument[k]) && argument[k] != QUOTE
    {
      if IsBlank(argument[i]) || argument[i] == QUOTE {
        return true;
      }
    }
    return false;
  }

  method QuoteCommandLineArgument(argument: string) returns (quoted: string)
    ensures quoted == Quoted(argument)
  {
    if argument == "" {
      return [QUOTE, QUOTE];
    }
    var special := HasBlankOrQuote(argument);
    if !special {
      return argument;
    }
    quoted := [QUOTE];
    var backslashes := 0;
    var i := 0;
    while i < |argument|
      invariant 0 <= i <= |argument|
      invariant quoted + Escaped(argument[i..], backslashes) == Quoted(argument)
    {
      var character := argument[i];
      assert argument[i..][0] == character && argument[i..][1..] == argument[i + 1..];
      if character == BACKSLASH {
        backslashes := backslashes + 1;
      } else if character == QUOTE {
        assert quoted + (Slashes(2 * backslashes + 1) + [QUOTE] + Escaped(argument[i + 1..], 0)) ==
               quoted + Slashes(2 * backslashes + 1) + [QUOTE] + Escaped(argument[i + 1..], 0);
        quoted := quoted + Slashes(2 * backslashes + 1) + [QUOTE];
        backslashes := 0;
      } else {
        assert quoted + (Slashes(backslashes) + [character] + Escaped(argument[i + 1..], 0)) ==
               quoted + Slashes(backslashes) + [character] + Escaped(argument[i + 1..], 0);
        quoted := quoted + Slashes(backslashes) + [character];
        backslashes := 0;
      }
      i := i + 1;
    }
    assert argument[i..] == "";
    quoted := quoted + Slashes(2 * backslashes) + [QUOTE];
  }

  // -------------------------------------------------------------- splitting

  datatype Splitting = Splitting(arguments: seq<string>, current: string, held: nat, quoted: bool, started: bool)

  const NOTHING_READ := Splitting([], "", 0, false, false)

  function Fed(s: Splitting, c: char): Splitting {
    if c == BACKSLASH then s.(held := s.held + 1, started := true)
    else if c == QUOTE && s.held % 2 == 0 then
      s.(current := s.current + Slashes(s.held / 2), held := 0, quoted := !s.quoted, started := true)
    else if c == QUOTE then s.(current := s.current + Slashes(s.held / 2) + [QUOTE], held := 0)
    else if IsBlank(c) && !s.quoted then Splitting(Flushed(s), "", 0, false, false)
    else s.(current := s.current + Slashes(s.held) + [c], held := 0, started := true)
  }

  function Flushed(s: Splitting): seq<string> {
    if s.started then s.arguments + [s.current + Slashes(s.held)] else s.arguments
  }

  function FedAll(s: Splitting, text: string): Splitting {
    if text == "" then s else Fed(FedAll(s, text[..|text| - 1]), text[|text| - 1])
  }

  /** A command line ends at its first zero character. */
  function UpToNul(text: string): string {
    if text == "" || text[0] == '\0' then "" else [text[0]] + UpToNul(text[1..])
  }

  function Split(text: string): seq<string> {
    Flushed(FedAll(NOTHING_READ, UpToNul(text)))
  }

  lemma {:induction false} FeedsJoin(s: Splitting, first: string, second: string)
    ensures FedAll(s, first + second) == FedAll(FedAll(s, first), second)
  {
    if second == "" {
      assert first + second == first;
    } else {
      FeedsJoin(s, first, second[..|second| - 1]);
      assert (first + second)[..|first + second| - 1] == first + second[..|second| - 1];
    }
  }

  lemma FedOne(s: Splitting, c: char)
    ensures FedAll(s, [c]) == Fed(s, c)
  {
    assert [c][..0] == "";
  }

  lemma {:induction false} FedSlashes(s: Splitting, count: nat)
    ensures FedAll(s, Slashes(count)) == s.(held := s.held + count, started := s.started || count > 0)
  {
    if count > 0 {
      FedSlashes(s, count - 1);
      assert Slashes(count)[..count - 1] == Slashes(count - 1);
    }
  }

  // ------------------------------------------------------------- round trip

  /** Inside quotes, an escaped argument is read back character by character, up to its closing quote. */
  lemma {:induction false} EscapedReadsBack(s: Splitting, argument: string, held: nat)
    requires s.quoted && s.held == 0 && s.started
    ensures FedAll(s, Escaped(argument, held)) ==
            s.(current := s.current + Slashes(held) + argument, quoted := false)
    decreases argument
  {
    hide Fed;
    if argument == "" {
      FedRun(s, 2 * held, QUOTE);
      assert s.current + Slashes(held) + "" == s.current + Slashes(held);
    } else {
      var c, rest := argument[0], argument[1..];
      assert argument == [c] + rest;
      if c == BACKSLASH {
        EscapedReadsBack(s, rest, held + 1);
        SlashesJoin(held, 1);
        assert s.current + Slashes(held) + argument == s.current + (Slashes(held) + Slashes(1)) + rest;
      } else {
        var count := if c == QUOTE then 2 * held + 1 else held;
        FedRun(s, count, c);
        var next := s.(current := s.current + Slashes(held) + [c]);
        EscapedReadsBack(next, rest, 0);
        FeedsJoin(s, Slashes(count) + [c], Escaped(rest, 0));
        assert next.current + Slashes(0) + rest == s.current + Slashes(held) + argument;
      }
    }
  }

  /** A run of backslashes and the character that ends it, inside quotes. */
  lemma FedRun(s: Splitting, count: nat, c: char)
    requires s.quoted && s.held == 0 && s.started && c != BACKSLASH
    ensures FedAll(s, Slashes(count) + [c]) ==
            if c != QUOTE then s.(current := s.current + Slashes(count) + [c])
            else if count % 2 == 0 then s.(current := s.current + Slashes(count / 2), quoted := false)
            else s.(current := s.current + Slashes(count / 2) + [c])
  {
    FeedsJoin(s, Slashes(count), [c]);
    FedSlashes(s, count);
    FedOne(s.(held := count), c);
  }

  /** What has been read of the current argument, held backslashes included. */
  function Read(s: Splitting): string {
    s.current + Slashes(s.held)
  }

  lemma PlainCharacter(s: Splitting, c: char)
    requires !s.quoted && !IsBlank(c) && c != QUOTE
    ensures var next := Fed(s, c);
            next.arguments == s.arguments && !next.quoted && next.started && Read(next) == Read(s) + [c]
  {
    if c == BACKSLASH {
      SlashesJoin(s.held, 1);
      assert s.current + Slashes(s.held) + Slashes(1) == s.current + (Slashes(s.held) + Slashes(1));
    } else {
      var next := Fed(s, c);
      assert Slashes(next.held) == "";
    }
  }

  /** Plain text is read literally; its trailing backslashes are held until the next character. */
  lemma {:induction false} PlainReadsBack(s: Splitting, argument: string)
    requires !s.quoted && !s.started && Read(s) == "" && argument != "" && !NeedsQuotes(argument)
    ensures var end := FedAll(s, argument);
            end.arguments == s.arguments && !end.quoted && end.started && Read(end) == argument
  {
    hide Fed, Read, IsBlank;
    var last := |argument| - 1;
    var front, c := argument[..last], argument[last];
    assert argument == front + [c] && c != QUOTE && !IsBlank(c);
    if front == "" {
      FedOne(s, c);
      PlainCharacter(s, c);
    } else {
      FrontIsPlain(argument);
      PlainReadsBack(s, front);
      PlainCharacter(FedAll(s, front), c);
    }
  }

  lemma FrontIsPlain(argument: string)
    requires argument != "" && !NeedsQuotes(argument)
    ensures !NeedsQuotes(argument[..|argument| - 1])
  {
    var front := argument[..|argument| - 1];
    forall i | 0 <= i < |front|
      ensures !IsBlank(front[i]) && front[i] != QUOTE
    {
      assert front[i] == argument[i];
    }
  }

  lemma QuoteOpens(s: Splitting)
    requires !s.quoted && s.held == 0
    ensures FedAll(s, [QUOTE]) == s.(quoted := true, started := true)
  {
    FedOne(s, QUOTE);
    assert s.current + Slashes(0) == s.current;
  }

  lemma NothingAround(text: string)
    ensures "" + Slashes(0) + text + Slashes(0) == text
  {
    assert Slashes(0) == "";
  }

  /** Between arguments, an escaped one is read back and flushed as it was. */
  lemma WrappedReadsBack(s: Splitting, argument: string)
    requires s == NOTHING_READ.(arguments := s.arguments)
    ensures var end := FedAll(s, [QUOTE] + Escaped(argument, 0));
            !end.quoted && Flushed(end) == s.arguments + [argument]
  {
    hide Fed, FedAll, Escaped, Slashes;
    FeedsJoin(s, [QUOTE], Escaped(argument, 0));
    QuoteOpens(s);
    EscapedReadsBack(s.(quoted := true, started := true), argument, 0);
    NothingAround(argument);
  }

  /** Between arguments, a quoted argument of any kind is read back and flushed as it was. */
  lemma QuotedReadsBack(s: Splitting, argument: string)
    requires s == NOTHING_READ.(arguments := s.arguments)
    ensures var end := FedAll(s, Quoted(argument));
            !end.quoted && Flushed(end) == s.arguments + [argument]
  {
    hide Fed, FedAll;
    if argument == "" || NeedsQuotes(argument) {
      WrappedReadsBack(s, argument);
      assert [QUOTE, QUOTE] == [QUOTE] + Escaped("", 0);
    } else {
      hide Escaped, Slashes;
      NothingAround("");
      PlainReadsBack(s, argument);
    }
  }

  /** A blank after an argument ends it and starts afresh. */
  lemma BlankSeparates(s: Splitting, argument: string, text: string)
    requires s == NOTHING_READ.(arguments := s.arguments)
    ensures FedAll(s, Quoted(argument) + " " + text) ==
            FedAll(NOTHING_READ.(arguments := s.arguments + [argument]), text)
  {
    QuotedReadsBack(s, argument);
    FedOne(FedAll(s, Quoted(argument)), ' ');
    hide FedAll, Quoted;
    FeedsJoin(s, Quoted(argument), " ");
    FeedsJoin(s, Quoted(argument) + " ", text);
  }

  lemma HeadMovesOver(done: seq<string>, rest: seq<string>)
    requires rest != []
    ensures done + [rest[0]] + rest[1..] == done + rest
    ensures |rest| == 1 ==> done + [rest[0]] == done + rest
  {
    assert rest == [rest[0]] + rest[1..];
  }

  lemma JoinedUnfolds(arguments: seq<string>)
    requires |arguments| > 1
    ensures Joined(arguments) == Quoted(arguments[0]) + " " + Joined(arguments[1..])
  {
  }

  lemma {:induction false} JoinedReadsBack(s: Splitting, arguments: seq<string>)
    requires s == NOTHING_READ.(arguments := s.arguments)
    ensures Flushed(FedAll(s, Joined(arguments))) == s.arguments + arguments
    decreases arguments
  {
    if arguments == [] {
      assert s.arguments + arguments == s.arguments;
    } else if |arguments| == 1 {
      QuotedReadsBack(s, arguments[0]);
      hide FedAll, Quoted, Flushed;
      HeadMovesOver(s.arguments, arguments);
    } else {
      JoinedUnfolds(arguments);
      hide FedAll, Quoted, Flushed, Joined;
      BlankSeparates(s, arguments[0], Joined(arguments[1..]));
      JoinedReadsBack(NOTHING_READ.(arguments := s.arguments + [arguments[0]]), arguments[1..]);
      HeadMovesOver(s.arguments, arguments);
    }
  }

  // ---------------------------------------------------------- zero characters

  ghost predicate NulFree(text: string) {
    '\0' !in text
  }

  lemma {:induction false} UpToNulKeepsNulFree(text: string)
    ensures NulFree(UpToNul(text)) && (NulFree(text) ==> UpToNul(text) == text)
  {
    if text != "" {
      UpToNulKeepsNulFree(text[1..]);
      assert text == [text[0]] + text[1..];
    }
  }

  lemma {:induction false} EscapedNulFree(argument: string, held: nat)
    requires NulFree(argument)
    ensures NulFree(Escaped(argument, held))
    decreases argument
  {
    if argument != "" {
      assert argument[0] in argument;
      EscapedNulFree(argument[1..], if argument[0] == BACKSLASH then held + 1 else 0);
    }
  }

  lemma {:induction false} JoinedNulFree(arguments: seq<string>)
    requires forall a :: a in arguments ==> NulFree(a)
    ensures NulFree(Joined(arguments))
  {
    if arguments != [] {
      assert arguments[0] in arguments;
      EscapedNulFree(arguments[0], 0);
      JoinedNulFree(arguments[1..]);
    }
  }

  lemma FedInventsNoNul(s: Splitting, c: char)
    requires c != '\0' && NulFree(s.current) && forall a :: a in s.arguments ==> NulFree(a)
    ensures NulFree(Fed(s, c).current) && forall a :: a in Fed(s, c).arguments ==> NulFree(a)
  {
  }

  lemma {:induction false} SplitInventsNoNul(s: Splitting, text: string)
    requires NulFree(text) && NulFree(s.current) && forall a :: a in s.arguments ==> NulFree(a)
    ensures var end := FedAll(s, text);
            NulFree(end.current) && forall a :: a in Flushed(end) ==> NulFree(a)
  {
    if text != "" {
      hide Fed;
      var last := |text| - 1;
      assert text[last] in text;
      SplitInventsNoNul(s, text[..last]);
      FedInventsNoNul(FedAll(s, text[..last]), text[last]);
    }
    hide FedAll, Fed;
  }

  /** Splitting what was quoted and joined gives the same arguments back exactly when none holds a zero character. */
  lemma QuotingRoundTrip(arguments: seq<string>)
    ensures Split(Joined(arguments)) == arguments <==> forall a :: a in arguments ==> NulFree(a)
  {
    var text := Joined(arguments);
    UpToNulKeepsNulFree(text);
    SplitInventsNoNul(NOTHING_READ, UpToNul(text));
    if forall a :: a in arguments ==> NulFree(a) {
      JoinedNulFree(arguments);
      JoinedReadsBack(NOTHING_READ, arguments);
    }
  }
}
