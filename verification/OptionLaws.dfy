/** What each element of a command line yields, told from the element itself and the tables of options. */
module OptionLaws {
  import opened FederationTime
  import opened Getopt

  // ---- Long options ----

  predicate Agrees(p: LongOption, hasArg: HasArg, flag: nat, val: int) {
    p.hasArg == hasArg && p.flag == flag && p.val == val
  }

  // The name is that of the first option so called; without one, all options it abbreviates mean the same.
  ghost predicate Means(long: seq<LongOption>, name: string, hasArg: HasArg, flag: nat, val: int) {
    if exists i :: 0 <= i < |long| && long[i].name == name then
      exists k :: 0 <= k < |long| && long[k].name == name && Agrees(long[k], hasArg, flag, val)
        && forall i :: 0 <= i < k ==> long[i].name != name
    else
      && (exists k :: 0 <= k < |long| && name <= long[k].name)
      && forall k :: 0 <= k < |long| && name <= long[k].name ==> Agrees(long[k], hasArg, flag, val)
  }

  // The name abbreviates no option.
  ghost predicate MeansNothing(long: seq<LongOption>, name: string) {
    forall k :: 0 <= k < |long| ==> !(name <= long[k].name)
  }

  lemma MatchMeans(long: seq<LongOption>, name: string, m: Match)
    requires IsMatch(long, name, m)
    ensures m.Match? ==>
      m.index < |long| && Means(long, name, long[m.index].hasArg, long[m.index].flag, long[m.index].val)
    ensures m == NoMatch <==> MeansNothing(long, name)
    ensures m.Match? <==> exists hasArg, flag, val :: Means(long, name, hasArg, flag, val)
  {
  }

  lemma MeansOneThing(long: seq<LongOption>, name: string, m: Match, hasArg: HasArg, flag: nat, val: int)
    requires IsMatch(long, name, m) && Means(long, name, hasArg, flag, val)
    ensures m.Match? && m.index < |long| && Agrees(long[m.index], hasArg, flag, val)
  {
  }

  lemma {:induction false} NameEndsAtEquals(name: string, tail: string)
    requires '=' !in name && (tail == "" || tail[0] == '=')
    ensures NameOf(name + tail) == name
  {
    if name == "" {
      assert name + tail == tail;
    } else {
      assert (name + tail)[0] == name[0] && (name + tail)[1..] == name[1..] + tail;
      NameEndsAtEquals(name[1..], tail);
    }
  }

  lemma LongBegins(o: Options, args: seq<string>, body: string)
    requires args != [] && o.long.Some? && args[0] == "--" + body && body != ""
    ensures Read(o, args, "") == Read(o, args, body) && IsLong(o, args[0])
  {
    assert args[0][0] == '-' && args[0][1] == '-' && args[0][2..] == body;
    assert args[0] != "--" && !NonOption(args[0]);
  }

  // A long option that needs no argument from the next element, or gets it there, or lacks it.
  lemma LongReads(o: Options, args: seq<string>, name: string, hasArg: HasArg, flag: nat, val: int)
    requires args != [] && o.long.Some? && args[0] == "--" + name && name != "" && '=' !in name
    requires Means(o.long.value, name, hasArg, flag, val)
    ensures var ret := if flag == 0 then Value(val) else FlagSet;
      Read(o, args, "") ==
        if hasArg != RequiredArgument then [(ret, None)] + Read(o, args[1..], "")
        else if |args| > 1 then [(ret, Some(args[1]))] + Read(o, args[2..], "")
        else [(Letter(if ":" <= o.letters then ':' else '?'), None)]
  {
    LongBegins(o, args, name);
    NameEndsAtEquals(name, "");
    assert name + "" == name;
    MeansOneThing(o.long.value, name, BestMatch(o.long.value, name), hasArg, flag, val);
    LongStep(o, args, name);
    hide Read, BestMatch, Means;
  }

  // A long option with its argument behind an equals sign.
  lemma LongReadsValue(o: Options, args: seq<string>, name: string, value: string, hasArg: HasArg, flag: nat, val: int)
    requires args != [] && o.long.Some? && args[0] == "--" + name + "=" + value && '=' !in name
    requires Means(o.long.value, name, hasArg, flag, val)
    ensures Read(o, args, "") ==
      if hasArg == NoArgument then [(Letter('?'), None)] + Read(o, args[1..], "")
      else [(if flag == 0 then Value(val) else FlagSet, Some(value))] + Read(o, args[1..], "")
  {
    var body := name + ("=" + value);
    assert args[0] == "--" + body;
    LongBegins(o, args, body);
    NameEndsAtEquals(name, "=" + value);
    MeansOneThing(o.long.value, name, BestMatch(o.long.value, name), hasArg, flag, val);
    LongStep(o, args, body);
    assert body[|name| + 1..] == value;
    hide Read, BestMatch, Means;
  }

  // A name without a single meaning is refused, whatever is behind an equals sign.
  lemma LongRefused(o: Options, args: seq<string>, name: string, tail: string)
    requires args != [] && o.long.Some? && args[0] == "--" + name + tail && name + tail != ""
    requires '=' !in name && (tail == "" || tail[0] == '=')
    requires forall hasArg, flag, val :: !Means(o.long.value, name, hasArg, flag, val)
    ensures Read(o, args, "") == [(Letter('?'), None)] + Read(o, args[1..], "")
  {
    var body := name + tail;
    assert args[0] == "--" + body;
    LongBegins(o, args, body);
    NameEndsAtEquals(name, tail);
    MatchMeans(o.long.value, name, BestMatch(o.long.value, name));
    LongStep(o, args, body);
    hide Read, BestMatch, Means;
  }

  lemma LongStep(o: Options, args: seq<string>, body: string)
    requires args != [] && body != "" && IsLong(o, args[0])
    ensures var m := BestMatch(o.long.value, NameOf(body));
      var f := LongFound(o.letters, o.long.value, body, m, NextElement(args, 0));
      && f.used <= |args| && f.left == Some("")
      && Read(o, args, body) == [(f.ret, f.arg)] + Read(o, args[f.used..], "")
      && (args[|args|..] == [] && Read(o, [], "") == [])
  {
    hide BestMatch, NameOf;
  }

  // ---- Letters ----

  predicate InLetters(o: Options, element: string) {
    o.long.None? || !("--" <= element)
  }

  lemma LongIff(o: Options, element: string)
    requires element != "" && element[0] == '-'
    ensures IsLong(o, element) <==> !InLetters(o, element)
  {
    if |element| > 1 {
      assert element[..2] == [element[0], element[1]];
    }
  }

  lemma GroupBegins(o: Options, args: seq<string>, chars: string)
    requires args != [] && args[0] == "-" + chars && chars != "" && chars != "-" && InLetters(o, args[0])
    ensures Read(o, args, "") == Read(o, args, chars)
  {
    assert args[0][0] == '-' && args[0][1..] == chars && |args[0]| == 1 + |chars|;
    LongIff(o, args[0]);
    assert args[0] != "--" && !NonOption(args[0]);
  }

  lemma {:induction false} KindOfLetter(before: string, c: char, after: string)
    requires c !in before && c != ':'
    ensures KindOf(before + [c] + after, c)
         == if "::" <= after then Allows else if ":" <= after then Requires else LetterKind.Plain
  {
    var letters := before + [c] + after;
    if before == "" {
      assert letters[0] == c && letters[1..] == after;
    } else {
      assert letters[0] == before[0] && letters[1..] == before[1..] + [c] + after;
      KindOfLetter(before[1..], c, after);
    }
  }

  lemma {:induction false} KindOfStranger(letters: string, c: char)
    requires c !in letters || c == ':'
    ensures KindOf(letters, c) == Unknown
  {
    if letters != "" && c != ':' {
      KindOfStranger(letters[1..], c);
    }
  }

  lemma ShortStep(o: Options, args: seq<string>, c: char, rest: string)
    requires args != [] && "-" <= args[0] && InLetters(o, args[0])
    ensures var f := ShortFound(o.letters, [c] + rest, NextElement(args, 0));
      && f.used <= |args|
      && Read(o, args, [c] + rest) == [(f.ret, f.arg)] + Read(o, args[f.used..], Text(f.left))
  {
    hide ShortFound, KindOf, LongFound, BestMatch, NextElement;
    LongIff(o, args[0]);
    assert [c] + rest != "";
    assert FoundIn(o, args, [c] + rest) == ShortFound(o.letters, [c] + rest, NextElement(args, 0));
  }

  lemma NothingToRead(o: Options, args: seq<string>)
    ensures Read(o, args[|args|..], "") == [] && args[0..] == args
  {
  }

  // What comes after a letter that takes no argument: the letters behind it, or the next element.
  ghost function Onward(o: Options, args: seq<string>, rest: string): seq<(Return, Option<string>)>
    requires args != []
  {
    if rest == "" then Read(o, args[1..], "") else Read(o, args, rest)
  }

  // A letter, by what follows its first place in the table: no colon, one, or two.
  lemma LetterReads(o: Options, args: seq<string>, before: string, c: char, after: string, rest: string)
    requires args != [] && "-" <= args[0] && InLetters(o, args[0])
    requires o.letters == before + [c] + after && c !in before && c != ':'
    ensures Read(o, args, [c] + rest) ==
      if !(":" <= after) then [(Letter(c), None)] + Onward(o, args, rest)
      else if rest != "" then [(Letter(c), Some(rest))] + Read(o, args[1..], "")
      else if "::" <= after then [(Letter(c), None)] + Read(o, args[1..], "")
      else if |args| > 1 then [(Letter(c), Some(args[1]))] + Read(o, args[2..], "")
      else [(Letter(if ":" <= o.letters then ':' else '?'), None)]
  {
    KindOfLetter(before, c, after);
    ShortStep(o, args, c, rest);
    assert ([c] + rest)[0] == c && ([c] + rest)[1..] == rest;
    NothingToRead(o, args);
    assert "::" <= after ==> ":" <= after;
    hide Read, KindOf;
  }

  // A letter that is not in the table is refused, and the letters behind it are read all the same.
  lemma StrangerReads(o: Options, args: seq<string>, c: char, rest: string)
    requires args != [] && "-" <= args[0] && InLetters(o, args[0]) && (c !in o.letters || c == ':')
    ensures Read(o, args, [c] + rest) == [(Letter('?'), None)] + Onward(o, args, rest)
  {
    KindOfStranger(o.letters, c);
    ShortStep(o, args, c, rest);
    assert ([c] + rest)[0] == c && ([c] + rest)[1..] == rest && args[0..] == args;
    hide Read, KindOf;
  }

  // The letter stands in the table, without a colon behind it.
  ghost predicate IsFlag(letters: string, c: char) {
    c != ':' && exists i :: 0 <= i < |letters| && letters[i] == c && c !in letters[..i] && !(":" <= letters[i + 1..])
  }

  function Letters(chars: string): seq<(Return, Option<string>)> {
    seq(|chars|, i requires 0 <= i < |chars| => (Letter(chars[i]), None))
  }

  lemma FlagReads(o: Options, args: seq<string>, c: char, rest: string)
    requires args != [] && "-" <= args[0] && InLetters(o, args[0]) && IsFlag(o.letters, c)
    ensures Read(o, args, [c] + rest) == [(Letter(c), None)] + Onward(o, args, rest)
  {
    var i :| 0 <= i < |o.letters| && o.letters[i] == c && c !in o.letters[..i] && !(":" <= o.letters[i + 1..]);
    assert o.letters == o.letters[..i] + [c] + o.letters[i + 1..];
    LetterReads(o, args, o.letters[..i], c, o.letters[i + 1..], rest);
    hide Read;
  }

  // Letters without arguments are told one by one, whatever comes behind them in the element.
  lemma {:induction false} FlagsRead(o: Options, args: seq<string>, chars: string, rest: string)
    requires args != [] && "-" <= args[0] && InLetters(o, args[0])
    requires chars != "" && forall c :: c in chars ==> IsFlag(o.letters, c)
    ensures Read(o, args, chars + rest) == Letters(chars) + Onward(o, args, rest)
    decreases |chars|
  {
    hide Read, IsFlag, InLetters;
    var c, more := chars[0], chars[1..] + rest;
    assert c in chars && chars + rest == [c] + more;
    FlagReads(o, args, c, more);
    if chars[1..] == "" {
      assert more == rest && Letters(chars) == [(Letter(c), None)];
    } else {
      FlagsRead(o, args, chars[1..], rest);
      assert Letters(chars) == [(Letter(c), None)] + Letters(chars[1..]);
    }
  }

  // ---- Other elements ----

  // What does not begin with '-', or is nothing else, is passed over; "--" ends it all.
  lemma OthersRead(o: Options, args: seq<string>)
    ensures args == [] || args[0] == "--" ==> Read(o, args, "") == []
    ensures args != [] && (args[0] == "-" || !("-" <= args[0])) ==> Read(o, args, "") == Read(o, args[1..], "")
  {
  }
}
