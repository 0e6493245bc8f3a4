/** The command line of the RTIA: options are moved in front of other arguments, in place, as they are found. */
module Getopt {
  import opened FederationTime

  // ---- Rotation by block swaps ----

  // `s'` is `s` with two blocks of `len` elements swapped.
  ghost predicate BlocksSwapped(s: seq<string>, s': seq<string>, i: nat, j: nat, len: nat)
    requires i + len <= j && j + len <= |s|
  {
    && |s'| == |s|
    && (forall k :: i <= k < i + len ==> s'[k] == s[k - i + j])
    && (forall k :: j <= k < j + len ==> s'[k] == s[k - j + i])
    && (forall k :: 0 <= k < |s| && !(i <= k < i + len) && !(j <= k < j + len) ==> s'[k] == s[k])
  }

  method SwapBlocks(a: array<string>, i: nat, j: nat, len: nat)
    requires i + len <= j && j + len <= a.Length
    modifies a
    ensures BlocksSwapped(old(a[..]), a[..], i, j, len)
  {
    ghost var was := a[..];
    var n := 0;
    while n < len
      invariant 0 <= n <= len && |was| == a.Length
      invariant forall k :: i <= k < i + n ==> a[k] == was[k - i + j]
      invariant forall k :: j <= k < j + n ==> a[k] == was[k - j + i]
      invariant forall k :: 0 <= k < a.Length && !(i <= k < i + n) && !(j <= k < j + n) ==> a[k] == was[k]
    {
      a[i + n], a[j + n] := a[j + n], a[i + n];
      n := n + 1;
    }
  }

  // The segment from `first` to `end` with its two parts, cut at `cut`, in the other order.
  function RotatedSegment(s: seq<string>, first: nat, cut: nat, end: nat): seq<string>
    requires first <= cut <= end <= |s|
  {
    s[..first] + (s[cut..end] + s[first..cut]) + s[end..]
  }

  // The element that belongs at index `k` of the segment.
  function Goal(was: seq<string>, first: nat, cut: nat, end: nat, k: nat): string
    requires first <= cut <= end <= |was| && first <= k < end
  {
    if k < first + (end - cut) then was[k + (cut - first)] else was[k - (end - cut)]
  }

  // What the loop keeps: below `bottom` and from `top` on the segment is as it should be, and swapping
  // the two blocks between would make it so there.
  ghost predicate Turning(was: seq<string>, s: seq<string>, first: nat, cut: nat, bottom: nat, middle: nat, top: nat,
                          end: nat) {
    && first <= bottom <= middle <= top <= end <= |was| == |s| && first <= cut <= end
    && (forall k :: 0 <= k < first || end <= k < |was| ==> s[k] == was[k])
    && (forall k :: first <= k < bottom || top <= k < end ==> s[k] == Goal(was, first, cut, end, k))
    && (forall k :: bottom <= k < middle ==> s[k] == Goal(was, first, cut, end, k + (top - middle)))
    && (forall k :: middle <= k < top ==> s[k] == Goal(was, first, cut, end, k - (middle - bottom)))
  }

  lemma TurningBegins(s: seq<string>, first: nat, cut: nat, end: nat)
    requires first <= cut <= end <= |s|
    ensures Turning(s, s, first, cut, first, cut, end, end)
  {
  }

  // The block below is the shorter: it has gone to the far end of the block above.
  lemma ShortBelow(was: seq<string>, s: seq<string>, s': seq<string>, first: nat, cut: nat, bottom: nat, middle: nat,
                   top: nat, end: nat, len: nat, low: nat)
    requires Turning(was, s, first, cut, bottom, middle, top, end)
    requires bottom + len == middle <= low && low + len == top && BlocksSwapped(s, s', bottom, low, len)
    ensures Turning(was, s', first, cut, bottom, middle, low, end)
  {
    hide Goal;
  }

  // The block above is the shorter, or they are equal: it has gone to the near end of the block below.
  lemma ShortAbove(was: seq<string>, s: seq<string>, s': seq<string>, first: nat, cut: nat, bottom: nat, middle: nat,
                   top: nat, end: nat, len: nat, high: nat)
    requires Turning(was, s, first, cut, bottom, middle, top, end)
    requires middle + len == top && bottom + len == high <= middle && BlocksSwapped(s, s', bottom, middle, len)
    ensures Turning(was, s', first, cut, high, middle, top, end)
  {
    hide Goal;
  }

  // With one of the blocks empty nothing is left to do.
  lemma TurningEnds(was: seq<string>, s: seq<string>, first: nat, cut: nat, bottom: nat, middle: nat, top: nat,
                    end: nat)
    requires Turning(was, s, first, cut, bottom, middle, top, end) && (top == middle || middle == bottom)
    ensures s == RotatedSegment(was, first, cut, end)
  {
  }

  // The bottom block is the short one: it changes places with the top of the block above.
  method MoveBelow(argv: array<string>, bottom: nat, middle: nat, top: nat,
                   ghost was: seq<string>, ghost first: nat, ghost cut: nat, ghost end: nat) returns (low: nat)
    requires Turning(was, argv[..], first, cut, bottom, middle, top, end) && middle - bottom <= top - middle
    modifies argv
    ensures low == top - (middle - bottom) && Turning(was, argv[..], first, cut, bottom, middle, low, end)
  {
    ghost var s := argv[..];
    var len := middle - bottom;
    low := top - len;
    assert bottom <= middle <= top <= argv.Length;
    hide *;
    SwapBlocks(argv, bottom, low, len);
    ShortBelow(was, s, argv[..], first, cut, bottom, middle, top, end, len, low);
  }

  // The top block is the short one: it changes places with the bottom of the block below.
  method MoveAbove(argv: array<string>, bottom: nat, middle: nat, top: nat,
                   ghost was: seq<string>, ghost first: nat, ghost cut: nat, ghost end: nat) returns (high: nat)
    requires Turning(was, argv[..], first, cut, bottom, middle, top, end) && top - middle <= middle - bottom
    modifies argv
    ensures high == bottom + (top - middle) && Turning(was, argv[..], first, cut, high, middle, top, end)
  {
    ghost var s := argv[..];
    var len := top - middle;
    high := bottom + len;
    assert bottom <= middle <= top <= argv.Length;
    hide *;
    SwapBlocks(argv, bottom, middle, len);
    ShortAbove(was, s, argv[..], first, cut, bottom, middle, top, end, len, high);
  }

  // The shorter block changes places with the far end of the longer one, until one of them is empty.
  method Rotate(argv: array<string>, first: nat, cut: nat, end: nat)
    requires first <= cut <= end <= argv.Length
    modifies argv
    ensures argv[..] == RotatedSegment(old(argv[..]), first, cut, end)
  {
    ghost var was := argv[..];
    var bottom, middle, top := first, cut, end;
    TurningBegins(was, first, cut, end);
    hide RotatedSegment, Goal;
    while top > middle && middle > bottom
      invariant Turning(was, argv[..], first, cut, bottom, middle, top, end)
      decreases top - bottom
    {
      if top - middle > middle - bottom {
        top := MoveBelow(argv, bottom, middle, top, was, first, cut, end);
      } else {
        bottom := MoveAbove(argv, bottom, middle, top, was, first, cut, end);
      }
    }
    TurningEnds(was, argv[..], first, cut, bottom, middle, top, end);
  }

  // ---- What an element of the command line means ----

  datatype HasArg = NoArgument | RequiredArgument | OptionalArgument

  datatype LongOption = LongOption(name: string, hasArg: HasArg, flag: nat, val: int)

  // The letters accepted, and the long options if there are any.
  datatype Options = Options(letters: string, long: Option<seq<LongOption>>)

  predicate NonOption(element: string) {
    element == "" || element[0] != '-' || |element| == 1
  }

  predicate IsLong(o: Options, element: string) {
    o.long.Some? && |element| > 1 && element[1] == '-'
  }

  datatype LetterKind = Unknown | Plain | Requires | Allows

  // What the letters say of `c`: followed by one colon it requires an argument, by two it allows one.
  function KindOf(letters: string, c: char): LetterKind {
    if letters == "" || c == ':' then Unknown
    else if letters[0] != c then KindOf(letters[1..], c)
    else if |letters| > 1 && letters[1] == ':' then (if |letters| > 2 && letters[2] == ':' then Allows else Requires)
    else Plain
  }

  // Whether a group of letters takes the next element as its argument, if there is one.
  function ShortTakesNext(letters: string, chars: string): bool {
    if chars == "" then false else
      match KindOf(letters, chars[0])
      case Unknown | Plain => ShortTakesNext(letters, chars[1..])
      case Requires => chars[1..] == ""
      case Allows => false
  }

  // The name of a long option ends at the first '='.
  function NameOf(body: string): string {
    if body == "" || body[0] == '=' then "" else [body[0]] + NameOf(body[1..])
  }

  predicate Abbreviates(name: string, p: LongOption) {
    name <= p.name
  }

  predicate Differ(p: LongOption, q: LongOption) {
    p.hasArg != q.hasArg || p.flag != q.flag || p.val != q.val
  }

  datatype Match = NoMatch | Ambiguous | Match(index: nat)

  // An exact name wins; else the first that is abbreviated, unless a later one that is means something else.
  ghost predicate IsMatch(long: seq<LongOption>, name: string, m: Match) {
    match m
    case NoMatch => forall i :: 0 <= i < |long| ==> !Abbreviates(name, long[i])
    case Ambiguous =>
      && (forall i :: 0 <= i < |long| ==> long[i].name != name)
      && exists i, j :: 0 <= i < j < |long| && FirstAbbreviated(long, name, i) && Abbreviates(name, long[j])
                     && Differ(long[i], long[j])
    case Match(k) =>
      && k < |long|
      && if exists i :: 0 <= i < |long| && long[i].name == name then
           long[k].name == name && forall i :: 0 <= i < k ==> long[i].name != name
         else
           && FirstAbbreviated(long, name, k)
           && forall j :: k < j < |long| && Abbreviates(name, long[j]) ==> !Differ(long[k], long[j])
  }

  ghost predicate FirstAbbreviated(long: seq<LongOption>, name: string, k: nat) {
    k < |long| && Abbreviates(name, long[k]) && forall i :: 0 <= i < k ==> !Abbreviates(name, long[i])
  }

  lemma MatchIsUnique(long: seq<LongOption>, name: string, a: Match, b: Match)
    requires IsMatch(long, name, a) && IsMatch(long, name, b)
    ensures a == b
  {
  }

  function FirstWhere(long: seq<LongOption>, p: LongOption -> bool): (k: nat)
    ensures k <= |long| && (k < |long| ==> p(long[k])) && forall i :: 0 <= i < k ==> !p(long[i])
  {
    if long == [] || p(long[0]) then 0 else 1 + FirstWhere(long[1..], p)
  }

  ghost function BestMatch(long: seq<LongOption>, name: string): (m: Match)
    ensures IsMatch(long, name, m)
  {
    var exact := FirstWhere(long, (p: LongOption) => p.name == name);
    var first := FirstWhere(long, (p: LongOption) => Abbreviates(name, p));
    if exact < |long| then Match(exact)
    else if first == |long| then NoMatch
    else if exists j :: first < j < |long| && Abbreviates(name, long[j]) && Differ(long[first], long[j]) then Ambiguous
    else Match(first)
  }

  // The loop over the long options, as far as `n`.
  ghost predicate Searched(long: seq<LongOption>, name: string, n: nat, found: Option<nat>, ambiguous: bool)
    requires n <= |long|
  {
    && (forall i :: 0 <= i < n ==> long[i].name != name)
    && (found.None? ==> !ambiguous && forall i :: 0 <= i < n ==> !Abbreviates(name, long[i]))
    && (found.Some? ==>
          && found.value < n && FirstAbbreviated(long, name, found.value)
          && (ambiguous <==>
                exists j :: found.value < j < n && Abbreviates(name, long[j]) && Differ(long[found.value], long[j])))
  }

  method FindLong(long: seq<LongOption>, name: string) returns (m: Match)
    ensures IsMatch(long, name, m)
  {
    var found: Option<nat> := None;
    var ambiguous := false;
    var i := 0;
    while i < |long|
      invariant 0 <= i <= |long| && Searched(long, name, i, found, ambiguous)
    {
      if name <= long[i].name {
        if |name| == |long[i].name| {
          return Match(i);
        } else if found.None? {
          found := Some(i);
        } else if Differ(long[found.value], long[i]) {
          ambiguous := true;
        }
      }
      i := i + 1;
    }
    return if ambiguous then Ambiguous else if found.Some? then Match(found.value) else NoMatch;
  }

  // ---- One option ----

  datatype Return = Done | NonOptionFound | Letter(c: char) | Value(val: int) | FlagSet

  // What is returned, the argument, what is left of the element, and how many elements are used up.
  datatype Found = Found(ret: Return, arg: Option<string>, left: Option<string>, used: nat)

  function Missing(letters: string): Return {
    Letter(if letters != "" && letters[0] == ':' then ':' else '?')
  }

  function ShortFound(letters: string, chars: string, next: Option<string>): Found
    requires chars != ""
  {
    var c, rest := chars[0], chars[1..];
    var one := if rest == "" then 1 else 0;
    match KindOf(letters, c)
    case Unknown => Found(Letter('?'), None, Some(rest), one)
    case Plain => Found(Letter(c), None, Some(rest), one)
    case Allows => Found(Letter(c), if rest != "" then Some(rest) else None, None, 1)
    case Requires =>
      if rest != "" then Found(Letter(c), Some(rest), None, 1)
      else if next.None? then Found(Missing(letters), None, None, 1)
      else Found(Letter(c), next, None, 2)
  }

  // What is returned for the option that was matched.
  function LongReturn(p: LongOption): Return {
    if p.flag != 0 then FlagSet else Value(p.val)
  }

  function LongFound(letters: string, long: seq<LongOption>, body: string, m: Match, next: Option<string>): Found
    requires m.Match? ==> m.index < |long|
  {
    var name := NameOf(body);
    if !m.Match? then Found(Letter('?'), None, Some(""), 1)
    else
      var p := long[m.index];
      if |name| < |body| then
        if p.hasArg != NoArgument then Found(LongReturn(p), Some(body[|name| + 1..]), Some(""), 1)
        else Found(Letter('?'), None, Some(""), 1)
      else if p.hasArg == RequiredArgument then
        if next.Some? then Found(LongReturn(p), next, Some(""), 2) else Found(Missing(letters), None, Some(""), 1)
      else Found(LongReturn(p), None, Some(""), 1)
  }

  ghost predicate LongTakesNext(long: seq<LongOption>, body: string) {
    exists m: Match :: IsMatch(long, NameOf(body), m) && m.Match? && |NameOf(body)| == |body|
      && long[m.index].hasArg == RequiredArgument
  }

  // Whether an option element takes the next element as its argument, if there is one.
  ghost predicate TakesNext(o: Options, element: string)
    requires !NonOption(element)
  {
    if IsLong(o, element) then LongTakesNext(o.long.value, element[2..]) else ShortTakesNext(o.letters, element[1..])
  }

  // A group of letters is used up letter by letter; the last call uses up its argument too.
  lemma ShortUses(letters: string, chars: string, next: Option<string>)
    requires chars != ""
    ensures var f := ShortFound(letters, chars, next);
      if f.left.Some? && f.left.value != "" then
        && f.used == 0 && f.left.value == chars[1..]
        && ShortTakesNext(letters, f.left.value) == ShortTakesNext(letters, chars)
      else f.used == 1 + if ShortTakesNext(letters, chars) && next.Some? then 1 else 0
  {
  }

  // Where a letter stands in the table, or the length, and what the colons behind it say.
  lemma {:induction false} PlaceOf(letters: string, c: char) returns (place: nat)
    ensures place <= |letters| && c !in letters[..place] && (place < |letters| ==> letters[place] == c)
    ensures KindOf(letters, c) ==
      if c == ':' || place == |letters| then Unknown
      else if "::" <= letters[place + 1..] then Allows
      else if ":" <= letters[place + 1..] then Requires else LetterKind.Plain
  {
    place := 0;
    if letters != "" && letters[0] != c {
      place := PlaceOf(letters[1..], c);
      assert letters[1..][..place] == letters[1..place + 1];
      assert letters[..place + 1] == [letters[0]] + letters[1..place + 1];
      assert letters[1..][place..] == letters[place + 1..];
      assert place < |letters[1..]| ==> letters[1..][place + 1..] == letters[place + 2..];
      place := place + 1;
    }
  }

  lemma {:induction false} NameIsShort(body: string)
    ensures |NameOf(body)| <= |body|
  {
    if body != "" && body[0] != '=' {
      NameIsShort(body[1..]);
    }
  }

  lemma LongUses(letters: string, long: seq<LongOption>, body: string, m: Match, next: Option<string>)
    requires IsMatch(long, NameOf(body), m)
    ensures var f := LongFound(letters, long, body, m, next);
      && f.left == Some("") && f.used == 1 + if LongTakesNext(long, body) && next.Some? then 1 else 0
  {
    NameIsShort(body);
    if LongTakesNext(long, body) {
      var k: Match :| IsMatch(long, NameOf(body), k) && k.Match? && |NameOf(body)| == |body|
                   && long[k.index].hasArg == RequiredArgument;
      MatchIsUnique(long, NameOf(body), k, m);
    }
    hide IsMatch;
  }

  // ---- What all calls return ----

  function Text(left: Option<string>): string {
    if left.Some? then left.value else ""
  }

  function Body(o: Options, element: string): string
    requires !NonOption(element)
  {
    element[if IsLong(o, element) then 2 else 1..]
  }

  // What `left` of the element `args[0]` says.
  ghost function FoundIn(o: Options, args: seq<string>, left: string): (f: Found)
    requires args != [] && left != ""
    ensures f.used <= |args| && (f.used == 0 ==> 0 < |Text(f.left)| < |left|)
  {
    var next := NextElement(args, 0);
    if IsLong(o, args[0]) then LongFound(o.letters, o.long.value, left, BestMatch(o.long.value, NameOf(left)), next)
    else ShortFound(o.letters, left, next)
  }

  // The options of a command line and their arguments, in order. `left` is what is still to be read of
  // the first element, if it has been begun.
  ghost function Read(o: Options, args: seq<string>, left: string): seq<(Return, Option<string>)>
    decreases |args|, if left == "" then 1 else 0, |left|
  {
    if args == [] then []
    else if left != "" then
      var f := FoundIn(o, args, left);
      [(f.ret, f.arg)] + Read(o, args[f.used..], Text(f.left))
    else if NonOption(args[0]) then Read(o, args[1..], "")
    else if args[0] == "--" then []
    else Read(o, args, Body(o, args[0]))
  }

  function NextElement(argv: seq<string>, optind: nat): Option<string> {
    if optind + 1 < |argv| then Some(argv[optind + 1]) else None
  }

  // ---- The whole command line ----

  // The number of elements an option uses up, its argument included, out of `args`.
  ghost function Uses(o: Options, args: seq<string>): nat
    requires args != [] && !NonOption(args[0])
  {
    1 + if TakesNext(o, args[0]) && |args| > 1 then 1 else 0
  }

  // The options with their arguments, up to and with the first "--", and all else, each in order.
  ghost function Split(o: Options, args: seq<string>): (seq<string>, seq<string>)
    decreases |args|
  {
    if args == [] then ([], [])
    else if NonOption(args[0]) then
      var (options, others) := Split(o, args[1..]);
      (options, [args[0]] + others)
    else if args[0] == "--" then ([args[0]], args[1..])
    else
      var n := Uses(o, args);
      var (options, others) := Split(o, args[n..]);
      (args[..n] + options, others)
  }

  // The elements whose mark is `mark`, in order.
  function Marked(args: seq<string>, marks: seq<bool>, mark: bool): seq<string>
    requires |marks| == |args|
  {
    if args == [] then [] else (if marks[0] == mark then [args[0]] else []) + Marked(args[1..], marks[1..], mark)
  }

  lemma MarkOne(args: seq<string>, mark: bool, marks: seq<bool>)
    requires |args| == |marks| + 1
    ensures Marked(args, [mark] + marks, mark) == [args[0]] + Marked(args[1..], marks, mark)
    ensures Marked(args, [mark] + marks, !mark) == Marked(args[1..], marks, !mark)
  {
    assert ([mark] + marks)[1..] == marks;
  }

  // Both groups are in their original order and together they are all there is.
  lemma {:induction false} SplitKeepsOrder(o: Options, args: seq<string>) returns (marks: seq<bool>)
    ensures |marks| == |args|
    ensures Split(o, args) == (Marked(args, marks, true), Marked(args, marks, false))
    decreases |args|
  {
    hide TakesNext;
    if args == [] {
      marks := [];
    } else if NonOption(args[0]) {
      var rest := SplitKeepsOrder(o, args[1..]);
      marks := [false] + rest;
      MarkOne(args, false, rest);
    } else if args[0] == "--" {
      marks := [true] + seq(|args[1..]|, _ => false);
      MarkOne(args, true, seq(|args[1..]|, _ => false));
      AllUnmarked(args[1..]);
      assert [args[0]] + [] == [args[0]];
    } else {
      var n := Uses(o, args);
      var rest := SplitKeepsOrder(o, args[n..]);
      marks := [true] + rest;
      if n == 2 {
        MarkOne(args[1..], true, rest);
        assert args[1..][1..] == args[2..] && args[..2] == [args[0]] + [args[1]];
        marks := [true] + ([true] + rest);
        MarkOne(args, true, [true] + rest);
        assert args[..2] + Split(o, args[2..]).0 == [args[0]] + ([args[1]] + Split(o, args[2..]).0);
      } else {
        MarkOne(args, true, rest);
        assert args[..1] == [args[0]];
      }
    }
  }

  lemma {:induction false} AllUnmarked(args: seq<string>)
    ensures Marked(args, seq(|args|, _ => false), true) == [] && Marked(args, seq(|args|, _ => false), false) == args
  {
    if args != [] {
      assert seq(|args|, _ => false)[1..] == seq(|args[1..]|, _ => false);
      AllUnmarked(args[1..]);
    }
  }

  // What comes last are non-options, unless "--" cut the options short.
  lemma {:induction false} OthersAreNonOptions(o: Options, args: seq<string>)
    requires "--" !in Split(o, args).0
    ensures forall e :: e in Split(o, args).1 ==> NonOption(e)
    decreases |args|
  {
    hide TakesNext;
    if args != [] {
      if NonOption(args[0]) {
        OthersAreNonOptions(o, args[1..]);
      } else if args[0] != "--" {
        OthersAreNonOptions(o, args[Uses(o, args)..]);
      }
    }
  }

  // A scan in progress: `argv[first..last]` are the non-options skipped, the options found since stand
  // behind them, and from `optind` on all is as it was.
  datatype Scan = Scan(argv: seq<string>, first: nat, last: nat, optind: nat)

  ghost predicate Scanning(o: Options, orig: seq<string>, sc: Scan) {
    && 1 <= sc.first <= sc.last <= sc.optind <= |sc.argv| == |orig|
    && sc.argv[0] == orig[0]
    && sc.argv[sc.optind..] == orig[sc.optind..]
    && Split(o, orig[1..]) == (
         sc.argv[1..sc.first] + sc.argv[sc.last..sc.optind] + Split(o, orig[sc.optind..]).0,
         sc.argv[sc.first..sc.last] + Split(o, orig[sc.optind..]).1)
  }

  // The end of a scan: the program's name, the options in their order, all else in its order.
  ghost predicate Sorted(o: Options, orig: seq<string>, argv: seq<string>, optind: nat)
    requires orig != []
  {
    var (options, others) := Split(o, orig[1..]);
    argv == [orig[0]] + options + others && optind == 1 + |options|
  }

  lemma Regroup3<T>(a: seq<T>, b: seq<T>, c: seq<T>)
    ensures a + (b + c) == (a + b) + c
  {
  }

  lemma Regroup4(a: seq<string>, b: seq<string>, c: seq<string>, d: seq<string>)
    ensures a + b + (c + d) == a + (b + c) + d
  {
  }

  lemma ScanBegins(o: Options, orig: seq<string>)
    requires orig != []
    ensures Scanning(o, orig, Scan(orig, 1, 1, 1))
  {
    assert orig[1..1] == [];
    var (options, others) := Split(o, orig[1..]);
    assert [] + [] + options == options && [] + others == others;
  }

  lemma ScanBounds(o: Options, orig: seq<string>, sc: Scan)
    requires Scanning(o, orig, sc)
    ensures 1 <= sc.first <= sc.last <= sc.optind <= |sc.argv| == |orig|
    ensures sc.optind < |orig| ==> sc.argv[sc.optind] == orig[sc.optind]
  {
    if sc.optind < |orig| {
      assert sc.argv[sc.optind..][0] == orig[sc.optind..][0];
    }
  }

  lemma RotatingScan(o: Options, orig: seq<string>, sc: Scan)
    requires Scanning(o, orig, sc)
    ensures var moved := sc.optind - sc.last;
      Scanning(o, orig, Scan(RotatedSegment(sc.argv, sc.first, sc.last, sc.optind), sc.first + moved, sc.optind,
                             sc.optind))
  {
    var moved := sc.optind - sc.last;
    var s := RotatedSegment(sc.argv, sc.first, sc.last, sc.optind);
    assert s[1..sc.first + moved] == sc.argv[1..sc.first] + sc.argv[sc.last..sc.optind];
    assert s[sc.first + moved..sc.optind] == sc.argv[sc.first..sc.last];
    assert s[sc.optind..] == sc.argv[sc.optind..];
    assert s[sc.optind..sc.optind] == [];
    var (options, others) := Split(o, orig[sc.optind..]);
    assert s[1..sc.first + moved] + [] + options == sc.argv[1..sc.first] + sc.argv[sc.last..sc.optind] + options;
    hide Split;
  }

  lemma NothingSkipped(o: Options, orig: seq<string>, sc: Scan)
    requires Scanning(o, orig, sc) && sc.first == sc.last
    ensures Scanning(o, orig, Scan(sc.argv, sc.optind, sc.optind, sc.optind))
  {
    assert sc.argv[1..sc.optind] == sc.argv[1..sc.first] + sc.argv[sc.last..sc.optind];
    assert sc.argv[sc.optind..sc.optind] == [] && sc.argv[sc.first..sc.last] == [];
    assert sc.argv[1..sc.optind] + [] == sc.argv[1..sc.optind];
    hide Split;
  }

  lemma SplitSkips(o: Options, rest: seq<string>)
    requires rest != [] && NonOption(rest[0])
    ensures var (options, others) := Split(o, rest[1..]); Split(o, rest) == (options, [rest[0]] + others)
  {
    hide NonOption;
  }

  lemma SkippingScan(o: Options, orig: seq<string>, sc: Scan)
    requires Scanning(o, orig, sc) && sc.last == sc.optind < |orig| && NonOption(sc.argv[sc.optind])
    ensures Scanning(o, orig, Scan(sc.argv, sc.first, sc.optind + 1, sc.optind + 1))
  {
    hide Split, NonOption;
    var rest := orig[sc.optind..];
    assert sc.argv[sc.optind] == sc.argv[sc.optind..][0] == rest[0] && rest[1..] == orig[sc.optind + 1..];
    assert sc.argv[sc.first..sc.optind + 1] == sc.argv[sc.first..sc.optind] + [rest[0]];
    assert sc.argv[sc.optind + 1..] == sc.argv[sc.optind..][1..];
    assert sc.argv[sc.last..sc.optind] == [] && sc.argv[sc.optind + 1..sc.optind + 1] == [];
    SplitSkips(o, rest);
    var others := Split(o, rest[1..]).1;
    assert sc.argv[sc.first..sc.optind] + ([rest[0]] + others) == sc.argv[sc.first..sc.optind + 1] + others;
  }

  // An option and the argument it takes are used up.
  lemma UsingScan(o: Options, orig: seq<string>, sc: Scan)
    requires Scanning(o, orig, sc) && sc.optind < |orig|
    requires !NonOption(orig[sc.optind]) && orig[sc.optind] != "--"
    ensures sc.optind + Uses(o, orig[sc.optind..]) <= |orig|
    ensures Scanning(o, orig, Scan(sc.argv, sc.first, sc.last, sc.optind + Uses(o, orig[sc.optind..])))
  {
    var rest := orig[sc.optind..];
    var n := Uses(o, rest);
    assert rest[n..] == orig[sc.optind + n..] && sc.argv[sc.optind + n..] == sc.argv[sc.optind..][n..];
    assert sc.argv[sc.last..sc.optind + n] == sc.argv[sc.last..sc.optind] + rest[..n];
    var (options, others) := Split(o, rest[n..]);
    hide Uses, TakesNext;
    Regroup4(sc.argv[1..sc.first], sc.argv[sc.last..sc.optind], rest[..n], options);
  }

  lemma EndedScan(o: Options, orig: seq<string>, sc: Scan)
    requires Scanning(o, orig, sc) && sc.last == sc.optind == |orig|
    ensures Sorted(o, orig, sc.argv, sc.first)
  {
    assert sc.argv == [orig[0]] + sc.argv[1..sc.first] + sc.argv[sc.first..sc.last];
    assert sc.argv[sc.last..sc.optind] == [] && orig[sc.optind..] == [];
    assert sc.argv[1..sc.first] + [] + [] == sc.argv[1..sc.first]
      && sc.argv[sc.first..sc.last] + [] == sc.argv[sc.first..sc.last];
  }

  // At "--" the scan ends early: it goes in front, all behind it stays.
  lemma CutScan(o: Options, orig: seq<string>, sc: Scan)
    requires Scanning(o, orig, sc) && sc.last == sc.optind < |orig| && orig[sc.optind] == "--"
    ensures Sorted(o, orig, RotatedSegment(sc.argv, sc.first, sc.last, sc.optind + 1), sc.first + 1)
  {
    var rest := orig[sc.optind..];
    assert rest[0] == "--" && rest[1..] == orig[sc.optind + 1..];
    assert sc.argv[sc.optind] == sc.argv[sc.optind..][0];
    assert sc.argv[sc.optind + 1..] == sc.argv[sc.optind..][1..];
    assert sc.argv[sc.optind..sc.optind + 1] == ["--"] && sc.argv[sc.last..sc.optind] == [];
    assert Split(o, rest) == (["--"], orig[sc.optind + 1..]);
    assert sc.argv[..sc.first] == [orig[0]] + sc.argv[1..sc.first];
    var front, skipped := sc.argv[1..sc.first], sc.argv[sc.first..sc.last];
    assert Split(o, orig[1..]) == (front + ["--"], skipped + rest[1..]) by {
      assert front + [] + ["--"] == front + ["--"];
    }
    assert [orig[0]] + front + (["--"] + skipped) + rest[1..] == [orig[0]] + (front + ["--"]) + (skipped + rest[1..]);
  }

  // What is left of the element at `optind`, if it has been begun, says as much as the whole about whether
  // the next element is its argument.
  ghost predicate AtElement(o: Options, orig: seq<string>, optind: nat, left: Option<string>) {
    left.Some? && left.value != "" ==>
      && optind < |orig| && !NonOption(orig[optind]) && orig[optind] != "--"
      && |left.value| < |orig[optind]|
      && if IsLong(o, orig[optind]) then left.value == orig[optind][2..]
         else ShortTakesNext(o.letters, left.value) == TakesNext(o, orig[optind])
  }

  function After(sc: Scan, used: nat): Scan {
    sc.(optind := sc.optind + used)
  }

  lemma LongAnswers(letters: string, long: seq<LongOption>, body: string, m: Match, next: Option<string>)
    requires IsMatch(long, NameOf(body), m)
    ensures var ret := LongFound(letters, long, body, m, next).ret; ret != Done && ret != NonOptionFound
  {
  }

  lemma ShortAnswers(letters: string, chars: string, next: Option<string>)
    requires chars != ""
    ensures var ret := ShortFound(letters, chars, next).ret; ret != Done && ret != NonOptionFound
  {
  }

  lemma NothingLeft(o: Options, orig: seq<string>, i: nat)
    ensures AtElement(o, orig, i, Some(""))
  {
  }

  // A long option is used up at once.
  lemma ElementTaken(o: Options, orig: seq<string>, sc: Scan, body: string)
    requires Scanning(o, orig, sc) && AtElement(o, orig, sc.optind, Some(body)) && body != ""
    requires IsLong(o, orig[sc.optind])
    ensures o.long.Some? && sc.optind < |orig|
    ensures var next := NextElement(sc.argv, sc.optind);
      Scanning(o, orig, After(sc, 1 + if LongTakesNext(o.long.value, body) && next.Some? then 1 else 0))
  {
    ScanBounds(o, orig, sc);
    UsingScan(o, orig, sc);
    assert orig[sc.optind..][0] == orig[sc.optind];
    hide Scanning, LongTakesNext, ShortTakesNext, Split;
  }

  lemma LongTaken(o: Options, orig: seq<string>, sc: Scan, body: string, m: Match)
    requires Scanning(o, orig, sc) && AtElement(o, orig, sc.optind, Some(body)) && body != ""
    requires IsLong(o, orig[sc.optind]) && IsMatch(o.long.value, NameOf(body), m)
    ensures var f := LongFound(o.letters, o.long.value, body, m, NextElement(sc.argv, sc.optind));
      Scanning(o, orig, After(sc, f.used)) && AtElement(o, orig, sc.optind + f.used, f.left) && f.used > 0
  {
    var f := LongFound(o.letters, o.long.value, body, m, NextElement(sc.argv, sc.optind));
    hide *;
    ElementTaken(o, orig, sc, body);
    LongUses(o.letters, o.long.value, body, m, NextElement(sc.argv, sc.optind));
    NothingLeft(o, orig, sc.optind + f.used);
  }

  function LeftOf(left: Option<string>): nat {
    if left.Some? then |left.value| else 0
  }

  lemma ShortTaken(o: Options, orig: seq<string>, sc: Scan, chars: string)
    requires Scanning(o, orig, sc) && AtElement(o, orig, sc.optind, Some(chars)) && chars != ""
    requires !IsLong(o, orig[sc.optind])
    ensures var f := ShortFound(o.letters, chars, NextElement(sc.argv, sc.optind));
      && Scanning(o, orig, After(sc, f.used)) && AtElement(o, orig, sc.optind + f.used, f.left)
      && (f.used > 0 || 0 < LeftOf(f.left) < |chars|)
  {
    ScanBounds(o, orig, sc);
    UsingScan(o, orig, sc);
    assert orig[sc.optind..][0] == orig[sc.optind];
    hide Scanning, ShortTakesNext;
    ShortUses(o.letters, chars, NextElement(sc.argv, sc.optind));
  }

  lemma SkipRead(o: Options, orig: seq<string>, i: nat)
    requires i < |orig| && NonOption(orig[i])
    ensures Read(o, orig[i..], "") == Read(o, orig[i + 1..], "")
  {
    assert orig[i..][1..] == orig[i + 1..];
  }

  lemma BeginRead(o: Options, orig: seq<string>, i: nat)
    requires i < |orig| && !NonOption(orig[i]) && orig[i] != "--"
    ensures Read(o, orig[i..], "") == Read(o, orig[i..], Body(o, orig[i]))
  {
    assert orig[i..][0] == orig[i];
  }

  lemma EndRead(o: Options, orig: seq<string>, i: nat)
    requires i == |orig| || (i < |orig| && orig[i] == "--")
    ensures Read(o, orig[i..], "") == []
  {
    if i < |orig| {
      assert orig[i..][0] == orig[i];
    }
  }

  lemma OneRead(o: Options, orig: seq<string>, i: nat, left: string, f: Found)
    requires i < |orig| && left != "" && f == FoundIn(o, orig[i..], left)
    ensures i + f.used <= |orig|
    ensures Read(o, orig[i..], left) == [(f.ret, f.arg)] + Read(o, orig[i + f.used..], Text(f.left))
  {
    assert orig[i..][f.used..] == orig[i + f.used..];
  }

  lemma SameNext(o: Options, orig: seq<string>, sc: Scan)
    requires Scanning(o, orig, sc) && sc.optind < |orig|
    ensures orig[sc.optind..] != [] && orig[sc.optind..][0] == orig[sc.optind]
    ensures NextElement(orig[sc.optind..], 0) == NextElement(sc.argv, sc.optind)
  {
    if sc.optind + 1 < |orig| {
      assert sc.argv[sc.optind..][1] == orig[sc.optind..][1];
    }
  }

  lemma LongRead(o: Options, orig: seq<string>, sc: Scan, body: string, m: Match)
    requires Scanning(o, orig, sc) && sc.optind < |orig| && body != ""
    requires IsLong(o, orig[sc.optind]) && IsMatch(o.long.value, NameOf(body), m)
    ensures orig[sc.optind..] != []
    ensures FoundIn(o, orig[sc.optind..], body)
         == LongFound(o.letters, o.long.value, body, m, NextElement(sc.argv, sc.optind))
  {
    SameNext(o, orig, sc);
    MatchIsUnique(o.long.value, NameOf(body), m, BestMatch(o.long.value, NameOf(body)));
  }

  lemma ShortRead(o: Options, orig: seq<string>, sc: Scan, chars: string)
    requires Scanning(o, orig, sc) && sc.optind < |orig| && chars != ""
    requires !IsLong(o, orig[sc.optind])
    ensures orig[sc.optind..] != []
    ensures FoundIn(o, orig[sc.optind..], chars) == ShortFound(o.letters, chars, NextElement(sc.argv, sc.optind))
  {
    SameNext(o, orig, sc);
  }

  function Capped(n: nat, limit: nat): nat {
    if n > limit then limit else n
  }

  // Either further on, or at the same element with less of it left.
  predicate Shrinks(optind: nat, left: nat, optind': nat, left': nat) {
    optind < optind' || (optind == optind' && left' < left)
  }

  class Data {
    var optind: nat
    var optarg: Option<string>
    var initialized: bool
    // What is left of the element being scanned.
    var nextchar: Option<string>
    var firstNonopt: nat
    var lastNonopt: nat

    constructor ()
      ensures optind == 1 && !initialized && nextchar == None
    {
      optind, optarg, initialized, nextchar, firstNonopt, lastNonopt := 1, None, false, None, 0, 0;
    }

    ghost function ScanOf(argv: array<string>): Scan
      reads this, argv
    {
      Scan(argv[..], firstNonopt, lastNonopt, optind)
    }

    predicate InElement()
      reads this
    {
      nextchar.Some? && nextchar.value != ""
    }

    // Between two calls.
    ghost predicate Between(o: Options, orig: seq<string>, argv: array<string>)
      reads this, argv
    {
      Scanning(o, orig, ScanOf(argv)) && AtElement(o, orig, optind, nextchar)
    }

    // Before any call.
    ghost predicate Ready(o: Options, orig: seq<string>, argv: array<string>)
      reads this, argv
    {
      if optind == 0 || !initialized then
        optind <= 1 && orig != [] && argv[..] == orig && (optind == 1 ==> nextchar == None)
      else Between(o, orig, argv)
    }

    // What the calls from here on will return.
    ghost function Ahead(o: Options, orig: seq<string>): seq<(Return, Option<string>)>
      reads this
      requires orig != [] && optind <= |orig|
    {
      if optind == 0 || !initialized then Read(o, orig[1..], "") else Read(o, orig[optind..], Text(nextchar))
    }

    // How much of the present element is left to scan.
    function Left(argv: array<string>): nat
      reads this, argv
    {
      if InElement() then |nextchar.value| else if optind < argv.Length then |argv[optind]| else 0
    }

    // The skipped non-options and the options found after them change places.
    method Exchange(argv: array<string>)
      requires firstNonopt <= lastNonopt <= optind <= argv.Length
      modifies argv, this`firstNonopt, this`lastNonopt
      ensures argv[..] == RotatedSegment(old(argv[..]), old(firstNonopt), old(lastNonopt), optind)
      ensures firstNonopt == old(firstNonopt) + (optind - old(lastNonopt)) && lastNonopt == optind
    {
      Rotate(argv, firstNonopt, lastNonopt, optind);
      firstNonopt := firstNonopt + (optind - lastNonopt);
      lastNonopt := optind;
    }

    method Initialize()
      modifies this`firstNonopt, this`lastNonopt, this`nextchar, this`initialized
      ensures firstNonopt == lastNonopt == optind && nextchar == None && initialized
    {
      firstNonopt, lastNonopt := optind, optind;
      nextchar := None;
      initialized := true;
    }

    // Options found since the last non-options go in front of them.
    method MoveOptions(argv: array<string>, ghost o: Options, ghost orig: seq<string>)
      requires Scanning(o, orig, ScanOf(argv))
      modifies argv, this`firstNonopt, this`lastNonopt
      ensures Scanning(o, orig, Scan(argv[..], firstNonopt, optind, optind))
      ensures firstNonopt <= optind
    {
      ghost var sc := ScanOf(argv);
      hide Scanning, RotatedSegment;
      ScanBounds(o, orig, sc);
      if firstNonopt != lastNonopt && lastNonopt != optind {
        RotatingScan(o, orig, sc);
        Exchange(argv);
      } else if lastNonopt != optind {
        NothingSkipped(o, orig, sc);
        firstNonopt := optind;
      }
    }

    // "--" goes in front of the non-options skipped, and the scan is over.
    method EndAtDashes(argv: array<string>, ghost o: Options, ghost orig: seq<string>)
      requires Scanning(o, orig, ScanOf(argv)) && lastNonopt == optind < argv.Length && argv[optind] == "--"
      modifies argv, this
      ensures Sorted(o, orig, argv[..], firstNonopt)
      ensures lastNonopt == optind == argv.Length && firstNonopt <= argv.Length && nextchar == old(nextchar)
    {
      ghost var sc := ScanOf(argv);
      hide Scanning, Sorted, RotatedSegment;
      ScanBounds(o, orig, sc);
      CutScan(o, orig, sc);
      optind := optind + 1;
      if firstNonopt != lastNonopt && lastNonopt != optind {
        Exchange(argv);
      } else if firstNonopt == lastNonopt {
        NothingToRotate(sc.argv, sc.first, optind);
        firstNonopt := optind;
      }
      lastNonopt := argv.Length;
      optind := argv.Length;
    }

    // None to go on with an option.
    method ShuffleArgv(argv: array<string>, o: Options, ghost orig: seq<string>) returns (ret: Option<Return>)
      requires Scanning(o, orig, ScanOf(argv)) && !InElement()
      modifies argv, this
      ensures ret.Some? ==> ret.value == Done && orig != [] && Sorted(o, orig, argv[..], optind)
      ensures ret.None? ==>
        && Between(o, orig, argv) && InElement()
        && old(optind) <= optind && initialized == old(initialized) && optarg == old(optarg)
      ensures old(optind) <= |orig| && Read(o, orig[old(optind)..], "")
           == if ret.Some? then [] else Read(o, orig[optind..], Text(nextchar))
    {
      hide Scanning, Sorted, Read;
      ScanBounds(o, orig, ScanOf(argv));
      lastNonopt := Capped(lastNonopt, optind);
      firstNonopt := Capped(firstNonopt, optind);
      MoveOptions(argv, o, orig);
      while optind < argv.Length && NonOption(argv[optind])
        invariant Scanning(o, orig, Scan(argv[..], firstNonopt, optind, optind))
        invariant firstNonopt <= optind <= argv.Length && old(optind) <= optind
        invariant initialized == old(initialized) && optarg == old(optarg) && nextchar == old(nextchar)
        invariant Read(o, orig[optind..], "") == Read(o, orig[old(optind)..], "")
        decreases argv.Length - optind
      {
        ScanBounds(o, orig, Scan(argv[..], firstNonopt, optind, optind));
        SkipRead(o, orig, optind);
        SkippingScan(o, orig, Scan(argv[..], firstNonopt, optind, optind));
        optind := optind + 1;
      }
      lastNonopt := optind;
      ScanBounds(o, orig, ScanOf(argv));
      if optind == argv.Length || argv[optind] == "--" {
        EndRead(o, orig, optind);
      } else {
        BeginRead(o, orig, optind);
      }
      if optind != argv.Length && argv[optind] == "--" {
        EndAtDashes(argv, o, orig);
      } else if optind == argv.Length {
        EndedScan(o, orig, ScanOf(argv));
      }
      if optind == argv.Length {
        if firstNonopt != lastNonopt {
          optind := firstNonopt;
        }
        return Some(Done);
      }
      // Here a non-option would be handed to the caller; there is none.
      if NonOption(argv[optind]) {
        assert false;
      }
      nextchar := Some(argv[optind][if IsLong(o, argv[optind]) then 2 else 1..]);
      return None;
    }

    method CheckShortOpt(argv: array<string>, letters: string) returns (ret: Return, ghost place: nat)
      requires InElement() && optind < argv.Length && optarg == None
      modifies this`optind, this`optarg, this`nextchar
      ensures var c, rest := old(nextchar).value[0], old(nextchar).value[1..];
        && place <= |letters| && c !in letters[..place] && (place < |letters| ==> letters[place] == c)
        && (c == ':' || place == |letters| ==>
              ret == Letter('?') && optarg == None && nextchar == Some(rest)
              && optind == old(optind) + if rest == "" then 1 else 0)
        && (c != ':' && place < |letters| ==>
              if !(":" <= letters[place + 1..]) then
                ret == Letter(c) && optarg == None && nextchar == Some(rest)
                && optind == old(optind) + if rest == "" then 1 else 0
              else if rest != "" then
                ret == Letter(c) && optarg == Some(rest) && nextchar == None && optind == old(optind) + 1
              else if "::" <= letters[place + 1..] then
                ret == Letter(c) && optarg == None && nextchar == None && optind == old(optind) + 1
              else if old(optind) + 1 < argv.Length then
                ret == Letter(c) && optarg == Some(argv[old(optind) + 1]) && nextchar == None
                && optind == old(optind) + 2
              else
                ret == Letter(if ":" <= letters then ':' else '?') && optarg == None && nextchar == None
                && optind == old(optind) + 1)
      ensures var found := ShortFound(letters, old(nextchar).value, NextElement(argv[..], old(optind)));
        ret == found.ret && optarg == found.arg && nextchar == found.left && optind == old(optind) + found.used
    {
      var c, rest := nextchar.value[0], nextchar.value[1..];
      place := PlaceOf(letters, c);
      nextchar := Some(rest);
      var kind := KindOf(letters, c);
      if rest == "" {
        optind := optind + 1;
      }
      if kind == Unknown {
        ret := Letter('?');
        return;
      }
      ret := Letter(c);
      if kind == Allows {
        if rest != "" {
          optarg := Some(rest);
          optind := optind + 1;
        } else {
          optarg := None;
        }
        nextchar := None;
      } else if kind == Requires {
        if rest != "" {
          optarg := Some(rest);
          optind := optind + 1;
        } else if optind == argv.Length {
          ret := Letter(if letters != "" && letters[0] == ':' then ':' else '?');
        } else {
          optarg := Some(argv[optind]);
          optind := optind + 1;
        }
        nextchar := None;
      }
    }

    method CheckLongOpt(argv: array<string>, letters: string, long: seq<LongOption>)
      returns (ret: Return, ghost m: Match, ghost end: nat)
      requires InElement() && optind < argv.Length && optarg == None
      modifies this`optind, this`optarg, this`nextchar
      // The name ends before the first '=', and decides the option; what it yields hangs on the option alone.
      ensures var body := old(nextchar).value;
        && end <= |body| && '=' !in body[..end] && (end < |body| ==> body[end] == '=')
        && IsMatch(long, body[..end], m) && nextchar == Some("")
        && (if m.Match? then
              var p := long[m.index];
              var value := if p.flag == 0 then Value(p.val) else FlagSet;
              if end < |body| && p.hasArg == NoArgument then
                ret == Letter('?') && optarg == None && optind == old(optind) + 1
              else if end < |body| then
                ret == value && optarg == Some(body[end + 1..]) && optind == old(optind) + 1
              else if p.hasArg != RequiredArgument then
                ret == value && optarg == None && optind == old(optind) + 1
              else if old(optind) + 1 < argv.Length then
                ret == value && optarg == Some(argv[old(optind) + 1]) && optind == old(optind) + 2
              else
                ret == Letter(if ":" <= letters then ':' else '?') && optarg == None && optind == old(optind) + 1
            else ret == Letter('?') && optarg == None && optind == old(optind) + 1)
      ensures IsMatch(long, NameOf(old(nextchar).value), m)
      ensures var found := LongFound(letters, long, old(nextchar).value, m, NextElement(argv[..], old(optind)));
        ret == found.ret && optarg == found.arg && nextchar == found.left && optind == old(optind) + found.used
    {
      var body := nextchar.value;
      var nameEnd := NameEnd(body);
      var match' := FindLong(long, body[..nameEnd]);
      m, end := match', nameEnd;
      hide IsMatch;
      optind := optind + 1;
      nextchar := Some("");
      if !match'.Match? {
        return Letter('?'), m, end;
      }
      var p := long[match'.index];
      if nameEnd < |body| {
        if p.hasArg == NoArgument {
          return Letter('?'), m, end;
        }
        optarg := Some(body[nameEnd + 1..]);
      } else if p.hasArg == RequiredArgument {
        if optind == argv.Length {
          return Letter(if letters != "" && letters[0] == ':' then ':' else '?'), m, end;
        }
        optarg := Some(argv[optind]);
        optind := optind + 1;
      }
      return if p.flag != 0 then FlagSet else Value(p.val), m, end;
    }

    // What being between two calls amounts to, in the midst of an element.
    lemma Midst(o: Options, orig: seq<string>, argv: array<string>)
      requires Between(o, orig, argv) && InElement()
      ensures Scanning(o, orig, Scan(argv[..], firstNonopt, lastNonopt, optind)) && AtElement(o, orig, optind, nextchar)
      ensures nextchar.Some? && nextchar.value != "" && nextchar == Some(nextchar.value)
      ensures optind < argv.Length && LeftOf(nextchar) == |nextchar.value|
    {
      ScanBounds(o, orig, ScanOf(argv));
    }

    lemma StillBetween(o: Options, orig: seq<string>, argv: array<string>, sc: Scan, used: nat)
      requires Scanning(o, orig, After(sc, used)) && AtElement(o, orig, optind, nextchar)
      requires sc == Scan(argv[..], firstNonopt, lastNonopt, sc.optind) && optind == sc.optind + used
      ensures Between(o, orig, argv)
    {
    }

    method TakeLong(argv: array<string>, o: Options, ghost orig: seq<string>) returns (ret: Return)
      requires Between(o, orig, argv) && InElement() && optarg == None && optind < |orig| && IsLong(o, orig[optind])
      requires o.long.Some?
      modifies this`optind, this`optarg, this`nextchar
      ensures Between(o, orig, argv) && ret != Done && ret != NonOptionFound
      ensures old(optind) < optind && initialized == old(initialized) && optind <= |orig|
      ensures Read(o, orig[old(optind)..], old(nextchar.value))
        == [(ret, optarg)] + Read(o, orig[optind..], Text(nextchar))
    {
      hide *;
      Midst(o, orig, argv);
      ghost var sc, chars := Scan(argv[..], firstNonopt, lastNonopt, optind), nextchar.value;
      ghost var m, end;
      ret, m, end := CheckLongOpt(argv, o.letters, o.long.value);
      LongTaken(o, orig, sc, chars, m);
      LongAnswers(o.letters, o.long.value, chars, m, NextElement(sc.argv, sc.optind));
      LongRead(o, orig, sc, chars, m);
      OneRead(o, orig, sc.optind, chars, FoundIn(o, orig[sc.optind..], chars));
      StillBetween(o, orig, argv, sc, optind - sc.optind);
    }

    method TakeShort(argv: array<string>, o: Options, ghost orig: seq<string>) returns (ret: Return)
      requires Between(o, orig, argv) && InElement() && optarg == None && optind < |orig| && !IsLong(o, orig[optind])
      modifies this`optind, this`optarg, this`nextchar
      ensures Between(o, orig, argv) && ret != Done && ret != NonOptionFound
      ensures old(optind) < optind || (old(optind) == optind && 0 < LeftOf(nextchar) < LeftOf(old(nextchar)))
      ensures initialized == old(initialized) && optind <= |orig|
      ensures Read(o, orig[old(optind)..], old(nextchar.value))
        == [(ret, optarg)] + Read(o, orig[optind..], Text(nextchar))
    {
      hide *;
      Midst(o, orig, argv);
      ghost var sc, chars := Scan(argv[..], firstNonopt, lastNonopt, optind), nextchar.value;
      ghost var place;
      ret, place := CheckShortOpt(argv, o.letters);
      ShortTaken(o, orig, sc, chars);
      ShortAnswers(o.letters, chars, NextElement(sc.argv, sc.optind));
      ShortRead(o, orig, sc, chars);
      OneRead(o, orig, sc.optind, chars, FoundIn(o, orig[sc.optind..], chars));
      StillBetween(o, orig, argv, sc, optind - sc.optind);
    }

    // The option at hand is returned, and used up as far as it goes.
    method TakeOption(argv: array<string>, o: Options, ghost orig: seq<string>) returns (ret: Return)
      requires Between(o, orig, argv) && InElement() && optarg == None
      modifies this`optind, this`optarg, this`nextchar
      ensures Between(o, orig, argv) && ret != Done && ret != NonOptionFound
      ensures Shrinks(old(optind), |old(nextchar).value|, optind, Left(argv)) && initialized == old(initialized)
      ensures old(optind) <= |orig| && optind <= |orig|
      ensures Read(o, orig[old(optind)..], old(nextchar.value))
        == [(ret, optarg)] + Read(o, orig[optind..], Text(nextchar))
    {
      ScanBounds(o, orig, ScanOf(argv));
      hide Scanning, TakesNext, ShortTakesNext, Read;
      if IsLong(o, argv[optind]) {
        ret := TakeLong(argv, o, orig);
      } else {
        ret := TakeShort(argv, o, orig);
      }
    }

    // The first call starts behind the program's name.
    method Start(argv: array<string>, ghost o: Options, ghost orig: seq<string>)
      requires argv.Length > 0 && Ready(o, orig, argv)
      modifies this
      ensures Between(o, orig, argv) && initialized && optarg == None && 0 < optind
      ensures old(optind) < optind || (old(optind) == optind && Left(argv) == old(Left(argv)))
      ensures orig != [] && old(optind) <= |orig| && optind <= |orig| && Ahead(o, orig) == old(Ahead(o, orig))
    {
      hide Read;
      optarg := None;
      if optind == 0 || !initialized {
        if optind == 0 {
          optind := 1;
        }
        Initialize();
        ScanBegins(o, orig);
      }
    }

    // One call: the next option, or the end.
    method GetoptInternal(argv: array<string>, o: Options, ghost orig: seq<string>) returns (ret: Return)
      requires argv.Length > 0 ==> Ready(o, orig, argv)
      modifies argv, this
      ensures ret != NonOptionFound
      ensures argv.Length == 0 ==> ret == Done
      ensures argv.Length > 0 && ret == Done ==> orig != [] && Sorted(o, orig, argv[..], optind)
      ensures ret != Done ==>
        initialized && optind > 0 && Between(o, orig, argv) && Shrinks(old(optind), old(Left(argv)), optind, Left(argv))
      ensures argv.Length > 0 ==> orig != [] && old(optind) <= |orig| && optind <= |orig|
      ensures argv.Length > 0 ==>
        old(Ahead(o, orig)) == if ret == Done then [] else [(ret, optarg)] + Ahead(o, orig)
    {
      if argv.Length < 1 {
        return Done;
      }
      hide Scanning, Sorted, ShortTakesNext, TakesNext, Read;
      Start(argv, o, orig);
      ghost var at, left := optind, Left(argv);
      ScanBounds(o, orig, ScanOf(argv));
      if !InElement() {
        var end := ShuffleArgv(argv, o, orig);
        if end.Some? {
          return end.value;
        }
      }
      assert at < optind || (optind == at && |nextchar.value| <= left);
      ret := TakeOption(argv, o, orig);
    }
  }

  // The options of a command line, one call after another.
  method ParseAll(argv: array<string>, o: Options) returns (data: Data, found: seq<(Return, Option<string>)>)
    requires argv.Length > 0
    modifies argv
    ensures Sorted(o, old(argv[..]), argv[..], data.optind)
    ensures found == Read(o, old(argv[1..]), "")
  {
    ghost var orig := argv[..];
    hide Read, Sorted, Scanning, AtElement, Data.Left;
    data := new Data();
    found := [];
    var ret := data.GetoptInternal(argv, o, orig);
    while ret != Done
      invariant ret == Done ==> Sorted(o, orig, argv[..], data.optind)
      invariant ret != Done ==>
        ret != NonOptionFound && data.initialized && data.optind > 0 && data.Between(o, orig, argv)
      invariant ret != Done ==>
        data.optind <= |orig| && Read(o, orig[1..], "") == found + ([(ret, data.optarg)] + data.Ahead(o, orig))
      invariant ret == Done ==> found == Read(o, orig[1..], "")
      decreases ret != Done, argv.Length - data.optind, data.Left(argv)
    {
      Regroup3(found, [(ret, data.optarg)], data.Ahead(o, orig));
      found := found + [(ret, data.optarg)];
      ret := data.GetoptInternal(argv, o, orig);
    }
  }

  // The index of the first '=', or the length.
  method NameEnd(body: string) returns (n: nat)
    ensures n <= |body| && body[..n] == NameOf(body)
    ensures '=' !in body[..n] && (n < |body| ==> body[n] == '=')
  {
    n := 0;
    while n < |body| && body[n] != '='
      invariant n <= |body| && NameOf(body) == body[..n] + NameOf(body[n..]) && '=' !in body[..n]
    {
      assert body[n..][1..] == body[n + 1..] && body[..n + 1] == body[..n] + [body[n]];
      n := n + 1;
    }
    assert NameOf(body[n..]) == "";
  }

  lemma NothingToRotate(s: seq<string>, first: nat, end: nat)
    requires first <= end <= |s|
    ensures RotatedSegment(s, first, first, end) == s
  {
  }
}
