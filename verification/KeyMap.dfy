/** The parser of Android key character maps, one character at a time.

    What the parser builds is kept in tables: the keys, the rules in the order in which they were
    added (each with the key it belongs to), and the behavior lists. A rule names its list by number,
    so two rules share a list exactly if they name the same one. */
module KeyMaps {
  import opened Arithmetic
  import opened Wrappers

  /** `Unfinished` is a \u literal whose digits are still coming in. */
  datatype Behavior = Literal(code: nat) | Unfinished(code: nat) | Fallback(key: string) | NoBehavior

  datatype Rule = Rule(key: nat, modifiers: seq<string>, behaviors: nat)

  /** What follows a word that is spelled out character by character. */
  datatype Goal = ToTypeName | ToKeyName | ToNone | ToFallbackKey

  datatype State =
    | CommentBeforeType | TypeStart | TypeNameStart | TypeName
    | CommentBeforeKey | KeyStart | KeyNameStart | KeyName | BlockStart
    | FilterStart | FilterName | FilterOr | FilterAnd
    | BehaviorStart | InLiteral | Escape | LiteralEnd | Unicode(digit: nat)
    | FallbackStart | FallbackName
    | Word(rest: string, goal: Goal)

  datatype Parser = Parser(state: State, type_: Option<string>, keys: seq<string>, rules: seq<Rule>, lists: seq<seq<Behavior>>)

  const START := Parser(TypeStart, None, [], [], [])

  function Last<T>(s: seq<T>): T
    requires s != []
  {
    s[|s| - 1]
  }

  function WithLast<T>(s: seq<T>, x: T): seq<T>
    requires s != []
  {
    s[..|s| - 1] + [x]
  }

  // ---------------------------------------------------------------- what the parser may rely on

  predicate InBlock(s: State) {
    s.KeyName? || s.BlockStart? || s.FilterStart? || InRule(s)
  }

  predicate InRule(s: State) {
    || s.FilterName? || s.FilterOr? || s.FilterAnd? || s.BehaviorStart? || s.InLiteral? || s.Escape? || s.LiteralEnd? || s.Unicode?
    || s.FallbackStart? || s.FallbackName? || (s.Word? && (s.goal.ToNone? || s.goal.ToFallbackKey?))
  }

  predicate Ok(p: Parser) {
    && (InBlock(p.state) ==> p.keys != [])
    && (InRule(p.state) ==> p.rules != [] && Last(p.rules).modifiers != [] && p.lists != [] && Last(p.rules).behaviors == |p.lists| - 1)
    && (p.state.FallbackName? ==> Last(p.lists) != [] && Last(Last(p.lists)).Fallback?)
    && (p.state.Unicode? ==> 1 <= p.state.digit <= 4 && (p.state.digit > 1 ==> Last(p.lists) != [] && Last(Last(p.lists)).Unfinished?))
    && (p.state.Word? ==> p.state.rest != [])
    && (p.state.TypeName? || p.state.TypeNameStart? ==> p.type_.Some?)
  }

  // ---------------------------------------------------------------- one character

  predicate IsUpper(c: char) {
    'A' <= c <= 'Z'
  }

  predicate IsLower(c: char) {
    'a' <= c <= 'z'
  }

  predicate StartsKey(c: char) {
    '0' <= c <= '9' || IsUpper(c)
  }

  predicate ContinuesKey(c: char) {
    StartsKey(c) || c == '_'
  }

  predicate IsHex(c: char) {
    '0' <= c <= '9' || 'a' <= c <= 'f'
  }

  function HexValue(c: char): nat
    requires IsHex(c)
  {
    if c <= '9' then c as int - '0' as int else c as int - 'a' as int + 10
  }

  /** What a digit counts, the first of four counting most. */
  function Weight(digit: nat): nat
    requires 1 <= digit <= 4
  {
    if digit == 1 then 4096 else if digit == 2 then 256 else if digit == 3 then 16 else 1
  }

  function Go(p: Parser, state: State): Option<Parser> {
    Some(p.(state := state))
  }

  function AddBehavior(p: Parser, b: Behavior, state: State): Option<Parser>
    requires p.lists != []
  {
    Some(p.(lists := WithLast(p.lists, Last(p.lists) + [b]), state := state))
  }

  function ChangeBehavior(p: Parser, b: Behavior, state: State): Option<Parser>
    requires p.lists != [] && Last(p.lists) != []
  {
    Some(p.(lists := WithLast(p.lists, WithLast(Last(p.lists), b)), state := state))
  }

  function ExtendModifier(p: Parser, c: char): Option<Parser>
    requires p.rules != [] && Last(p.rules).modifiers != []
  {
    var rule := Last(p.rules);
    Some(p.(rules := WithLast(p.rules, rule.(modifiers := WithLast(rule.modifiers, Last(rule.modifiers) + [c])))))
  }

  function Reached(p: Parser, goal: Goal): Option<Parser>
    requires Ok(p) && p.state.Word? && p.state.goal == goal
  {
    match goal
    case ToTypeName => Some(p.(state := TypeNameStart, type_ := Some("")))
    case ToKeyName => Go(p, KeyNameStart)
    case ToNone => AddBehavior(p, NoBehavior, BehaviorStart)
    case ToFallbackKey => Go(p, FallbackStart)
  }

  predicate InHeader(s: State) {
    s.CommentBeforeType? || s.TypeStart? || s.TypeNameStart? || s.TypeName? || s.CommentBeforeKey? || s.KeyStart? || s.Word?
  }

  predicate InBehavior(s: State) {
    s.BehaviorStart? || s.InLiteral? || s.Escape? || s.LiteralEnd? || s.Unicode? || s.FallbackStart? || s.FallbackName?
  }

  function StepHeader(p: Parser, c: char): (r: Option<Parser>)
    requires Ok(p) && InHeader(p.state)
    ensures r.Some? ==> Ok(r.value)
  {
    match p.state
    case CommentBeforeType => if c == '\n' then Go(p, TypeStart) else Some(p)
    case TypeStart =>
      if c == '\n' then Some(p) else if c == '#' then Go(p, CommentBeforeType)
      else if c == 'k' then Go(p, Word("ey", ToKeyName)) else if c == 't' then Go(p, Word("ype", ToTypeName)) else None
    case Word(rest, goal) =>
      if c != rest[0] then None else if |rest| > 1 then Go(p, Word(rest[1..], goal)) else Reached(p, goal)
    case TypeNameStart =>
      if c == ' ' then Some(p) else if IsUpper(c) then Some(p.(state := TypeName, type_ := Some(p.type_.value + [c]))) else None
    case TypeName =>
      if c == '\n' then Go(p, TypeStart) else if IsUpper(c) then Some(p.(type_ := Some(p.type_.value + [c]))) else None
    case CommentBeforeKey => if c == '\n' then Go(p, KeyStart) else Some(p)
    case KeyStart =>
      if c == '\n' then Some(p) else if c == '#' then Go(p, CommentBeforeKey)
      else if c == 'k' then Go(p, Word("ey", ToKeyName)) else None
  }

  function StepKey(p: Parser, c: char): (r: Option<Parser>)
    requires Ok(p) && !InHeader(p.state) && !InBehavior(p.state)
    ensures r.Some? ==> Ok(r.value)
  {
    match p.state
    case KeyNameStart =>
      if c == ' ' then Some(p) else if StartsKey(c) then Some(p.(state := KeyName, keys := p.keys + [[c]])) else None
    case KeyName =>
      if c == ' ' then Go(p, BlockStart)
      else if ContinuesKey(c) then Some(p.(keys := WithLast(p.keys, Last(p.keys) + [c]))) else None
    case BlockStart => if c == ' ' then Some(p) else if c == '{' then Go(p, FilterStart) else None
    case FilterStart =>
      if c == '\n' || c == '\t' || c == ' ' then Some(p) else if c == '}' then Go(p, KeyStart)
      else if IsLower(c) then
        Some(p.(state := FilterName, rules := p.rules + [Rule(|p.keys| - 1, [[c]], |p.lists|)], lists := p.lists + [[]]))
      else None
    case FilterName =>
      if c == ':' then Go(p, BehaviorStart) else if c == ',' then Go(p, FilterOr) else if c == '+' then Go(p, FilterAnd)
      else if IsLower(c) then ExtendModifier(p, c) else None
    case FilterOr =>
      if c == ' ' then Some(p)
      else if IsLower(c) then Some(p.(state := FilterName, rules := p.rules + [Rule(|p.keys| - 1, [[c]], Last(p.rules).behaviors)]))
      else None
    case FilterAnd =>
      if c == ' ' then Some(p)
      else if IsLower(c) then
        var rule := Last(p.rules);
        Some(p.(state := FilterName, rules := WithLast(p.rules, rule.(modifiers := rule.modifiers + [[c]]))))
      else None
  }

  function StepBehavior(p: Parser, c: char): (r: Option<Parser>)
    requires Ok(p) && InBehavior(p.state)
    ensures r.Some? ==> Ok(r.value)
  {
    match p.state
    case InLiteral =>
      if c == '\\' then Go(p, Escape) else if c != '\'' then AddBehavior(p, Literal(c as int), LiteralEnd) else None
    case Escape =>
      if c == '\\' || c == '\'' || c == '"' then AddBehavior(p, Literal(c as int), LiteralEnd)
      else if c == 'n' then AddBehavior(p, Literal(10), LiteralEnd)
      else if c == 't' then AddBehavior(p, Literal(9), LiteralEnd)
      else if c == 'u' then Go(p, Unicode(1)) else None
    case LiteralEnd => if c == '\'' then Go(p, BehaviorStart) else None
    case BehaviorStart =>
      if c == '\n' then Go(p, FilterStart) else if c == ' ' then Some(p) else if c == '\'' then Go(p, InLiteral)
      else if c == 'n' then Go(p, Word("one", ToNone)) else if c == 'f' then Go(p, Word("allback", ToFallbackKey)) else None
    case Unicode(digit) =>
      if !IsHex(c) then None
      else if digit == 1 then AddBehavior(p, Unfinished(HexValue(c) * Weight(1)), Unicode(2))
      else
        var code := Last(Last(p.lists)).code + HexValue(c) * Weight(digit);
        if digit < 4 then ChangeBehavior(p, Unfinished(code), Unicode(digit + 1))
        else ChangeBehavior(p, Literal(code), LiteralEnd)
    case FallbackStart =>
      if c == ' ' then Some(p) else if StartsKey(c) then AddBehavior(p, Fallback([c]), FallbackName) else None
    case FallbackName =>
      if c == ' ' then Go(p, BehaviorStart) else if c == '\n' then Go(p, FilterStart)
      else if ContinuesKey(c) then ChangeBehavior(p, Fallback(Last(Last(p.lists)).key + [c]), FallbackName) else None
  }

  /** The parser after one more character, or none if it must not come here. */
  function Step(p: Parser, c: char): (r: Option<Parser>)
    requires Ok(p)
    ensures r.Some? ==> Ok(r.value)
  {
    if InHeader(p.state) then StepHeader(p, c) else if InBehavior(p.state) then StepBehavior(p, c) else StepKey(p, c)
  }

  /** The parser after some characters. */
  function Run(p: Parser, s: string): (r: Option<Parser>)
    requires Ok(p)
    ensures r.Some? ==> Ok(r.value)
    decreases |s|
  {
    if s == "" then Some(p) else if Step(p, s[0]).None? then None else Run(Step(p, s[0]).value, s[1..])
  }

  class KeyMapParser {
    var state: State
    var type_: Option<string>
    var keys: seq<string>
    var rules: seq<Rule>
    var lists: seq<seq<Behavior>>
    /** Whether a character came where it must not; the result is an error then. */
    var failed: bool

    ghost function View(): Parser
      reads this
    {
      Parser(state, type_, keys, rules, lists)
    }

    constructor ()
      ensures View() == START && !failed
    {
      state, type_, keys, rules, lists, failed := TypeStart, None, [], [], [], false;
    }

    /** A chunk is read up to its end or to the first character that must not come there. */
    method Read(chunk: string)
      requires Ok(View()) && !failed
      modifies this
      ensures failed <==> Run(old(View()), chunk).None?
      ensures !failed ==> View() == Run(old(View()), chunk).value && Ok(View())
    {
      for i := 0 to |chunk|
        invariant Ok(View()) && !failed
        invariant Run(View(), chunk[i..]) == Run(old(View()), chunk)
      {
        assert chunk[i..][0] == chunk[i] && chunk[i..][1..] == chunk[i + 1..];
        var next := Step(Parser(state, type_, keys, rules, lists), chunk[i]);
        if next.None? {
          failed := true;
          return;
        }
        var p := next.value;
        state, type_, keys, rules, lists := p.state, p.type_, p.keys, p.rules, p.lists;
      }
      assert chunk[|chunk|..] == "";
    }
  }

  // ---------------------------------------------------------------- running over a text in parts

  lemma {:induction false} RunParts(p: Parser, s: string, t: string)
    requires Ok(p)
    ensures Run(p, s).None? ==> Run(p, s + t).None?
    ensures Run(p, s).Some? ==> Run(p, s + t) == Run(Run(p, s).value, t)
    decreases |s|
  {
    hide Step;
    if s == "" {
      assert s + t == t;
    } else {
      assert (s + t)[0] == s[0] && (s + t)[1..] == s[1..] + t;
      if Step(p, s[0]).Some? {
        RunParts(Step(p, s[0]).value, s[1..], t);
      }
    }
  }

  lemma RunOne(p: Parser, c: char)
    requires Ok(p)
    ensures Run(p, [c]) == Step(p, c)
  {
    hide Step;
    if Step(p, c).Some? {
      assert Run(Step(p, c).value, [c][1..]) == Step(p, c);
    }
  }

  /** The text leads from one parser to another. */
  ghost predicate Leads(p: Parser, s: string, q: Parser) {
    Ok(p) && Ok(q) && Run(p, s) == Some(q)
  }

  lemma LeadsOn(p: Parser, s: string, q: Parser, t: string, r: Parser)
    requires Leads(p, s, q) && Leads(q, t, r)
    ensures Leads(p, s + t, r)
  {
    hide Run;
    RunParts(p, s, t);
  }

  lemma LeadsByOne(p: Parser, c: char, q: Parser)
    requires Ok(p) && Step(p, c) == Some(q)
    ensures Leads(p, [c], q)
  {
    hide Step;
    RunOne(p, c);
  }

  lemma {:induction false} LeadsByWord(p: Parser, word: string, goal: Goal)
    requires Ok(p) && word != "" && p.state == Word(word, goal)
    ensures Leads(p, word, Reached(p, goal).value)
    decreases |word|
  {
    hide Run;
    if |word| == 1 {
      LeadsByOne(p, word[0], Reached(p, goal).value);
      assert [word[0]] == word;
    } else {
      var q := p.(state := Word(word[1..], goal));
      LeadsByOne(p, word[0], q);
      LeadsByWord(q, word[1..], goal);
      LeadsOn(p, [word[0]], q, word[1..], Reached(p, goal).value);
      assert [word[0]] + word[1..] == word;
    }
  }

  /** Characters that leave the parser where it is. */
  lemma {:induction false} LeadsNowhere(p: Parser, s: string)
    requires Ok(p) && forall i | 0 <= i < |s| :: Step(p, s[i]) == Some(p)
    ensures Leads(p, s, p)
    decreases |s|
  {
    hide Step;
    if s != "" {
      LeadsNowhere(p, s[1..]);
    }
  }

  // ---------------------------------------------------------------- where reading fails

  predicate Capital(c: char) {
    c in "ABCDEFGHIJKLMNOPQRSTUVWXYZ"
  }

  predicate Small(c: char) {
    c in "abcdefghijklmnopqrstuvwxyz"
  }

  predicate Decimal(c: char) {
    c in "0123456789"
  }

  /** The characters that may come in a state. */
  predicate Expected(s: State, c: char) {
    match s
    case CommentBeforeType | CommentBeforeKey => true
    case TypeStart => c in "\n#kt"
    case TypeNameStart => c == ' ' || Capital(c)
    case TypeName => c == '\n' || Capital(c)
    case KeyStart => c in "\n#k"
    case KeyNameStart | FallbackStart => c == ' ' || Decimal(c) || Capital(c)
    case KeyName => c in " _" || Decimal(c) || Capital(c)
    case FallbackName => c in " \n_" || Decimal(c) || Capital(c)
    case BlockStart => c in " {"
    case FilterStart => c in "\n\t }" || Small(c)
    case FilterName => c in ":,+" || Small(c)
    case FilterOr | FilterAnd => c == ' ' || Small(c)
    case BehaviorStart => c in "\n 'nf"
    case InLiteral => c != '\''
    case Escape => c in "\\'\"ntu"
    case LiteralEnd => c == '\''
    case Unicode(_) => Decimal(c) || c in "abcdef"
    case Word(rest, _) => rest != "" && rest[0] == c
  }

  lemma Letters(c: char)
    ensures Capital(c) <==> 'A' <= c <= 'Z'
    ensures Small(c) <==> 'a' <= c <= 'z'
    ensures Decimal(c) <==> '0' <= c <= '9'
    ensures c in "abcdef" <==> 'a' <= c <= 'f'
  {
  }

  /** Exactly the expected characters are read; blanks that are expected change nothing, except that they end a name. */
  lemma ReadsExpected(p: Parser, c: char)
    requires Ok(p)
    ensures Step(p, c).Some? <==> Expected(p.state, c)
    ensures c == ' ' && Expected(p.state, c) && !p.state.KeyName? && !p.state.FallbackName? && !p.state.InLiteral? && !p.state.Word? ==>
      Step(p, c) == Some(p)
  {
    hide Capital, Small, Decimal;
    Letters(c);
  }

  /** Reading fails at the first character that is not expected, and nowhere else. */
  lemma {:induction false} FailsWhereUnexpected(p: Parser, s: string)
    requires Ok(p)
    ensures Run(p, s).None? <==>
      exists i :: 0 <= i < |s| && Run(p, s[..i]).Some? && !Expected(Run(p, s[..i]).value.state, s[i])
    decreases |s|
  {
    hide Step, Expected;
    if s != "" {
      ReadsExpected(p, s[0]);
      assert s[..0] == "";
      if Step(p, s[0]).Some? {
        var q := Step(p, s[0]).value;
        FailsWhereUnexpected(q, s[1..]);
        forall i | 0 < i <= |s|
          ensures Run(p, s[..i]) == Run(q, s[1..][..i - 1])
        {
          assert s[..i][0] == s[0] && s[..i][1..] == s[1..][..i - 1];
        }
        if Run(p, s).None? {
          var i :| 0 <= i < |s[1..]| && Run(q, s[1..][..i]).Some? && !Expected(Run(q, s[1..][..i]).value.state, s[1..][i]);
          assert Run(p, s[..i + 1]) == Run(q, s[1..][..i]) && s[i + 1] == s[1..][i];
        }
      } else {
        assert Run(p, s[..0]) == Some(p);
      }
    }
  }

  // ---------------------------------------------------------------- how a key map is written

  /** A character as it stands, behind a backslash, or as four hexadecimal digits. */
  datatype Spelling = Plain(c: char) | Escaped(c: char) | Coded(code: nat)

  predicate Spells(x: Spelling) {
    match x
    case Plain(c) => c != '\\' && c != '\''
    case Escaped(c) => c == '\\' || c == '\'' || c == '"' || c == 'n' || c == 't'
    case Coded(code) => code < 65536
  }

  function CodeOf(x: Spelling): nat {
    match x
    case Plain(c) => c as int
    case Escaped(c) => if c == 'n' then 10 else if c == 't' then 9 else c as int
    case Coded(code) => code
  }

  function HexDigit(d: nat): (c: char)
    requires d < 16
    ensures IsHex(c) && HexValue(c) == d
  {
    if d < 10 then '0' + d as char else 'a' + (d - 10) as char
  }

  function Spell(x: Spelling): string
    requires Spells(x)
  {
    match x
    case Plain(c) => [c]
    case Escaped(c) => ['\\', c]
    case Coded(code) =>
      ['\\', 'u', HexDigit(code / 16 / 16 / 16), HexDigit(code / 16 / 16 % 16), HexDigit(code / 16 % 16), HexDigit(code % 16)]
  }

  datatype Written = Quoted(spelling: Spelling) | FallsBack(key: string) | Nothing

  predicate IsKeyName(s: string) {
    s != "" && StartsKey(s[0]) && forall i | 0 <= i < |s| :: ContinuesKey(s[i])
  }

  predicate Writable(b: Written) {
    match b
    case Quoted(x) => Spells(x)
    case FallsBack(key) => IsKeyName(key)
    case Nothing => true
  }

  function BehaviorOf(b: Written): Behavior {
    match b
    case Quoted(x) => Literal(CodeOf(x))
    case FallsBack(key) => Fallback(key)
    case Nothing => NoBehavior
  }

  function Write(b: Written): string
    requires Writable(b)
  {
    match b
    case Quoted(x) => ['\''] + Spell(x) + ['\'']
    case FallsBack(key) => "fallback " + key
    case Nothing => "none"
  }

  /** Where the parser stands after a behavior: only a key may still go on. */
  function StateAfter(b: Written): State {
    if b.FallsBack? then FallbackName else BehaviorStart
  }

  /** The parser with more behaviors in the list of the present rule. */
  function With(p: Parser, more: seq<Behavior>, state: State): Parser
    requires p.lists != []
  {
    p.(lists := WithLast(p.lists, Last(p.lists) + more), state := state)
  }

  // ---------------------------------------------------------------- behaviors are read as written

  lemma LeadsByFirstDigit(p: Parser, d: nat)
    requires Ok(p) && p.state == Unicode(1) && d < 16
    ensures Leads(p, [HexDigit(d)], With(p, [Unfinished(d * 4096)], Unicode(2)))
  {
    hide HexDigit, Run;
    LeadsByOne(p, HexDigit(d), With(p, [Unfinished(d * 4096)], Unicode(2)));
  }

  lemma LeadsByDigit(p: Parser, before: seq<Behavior>, code: nat, d: nat, digit: nat)
    requires Ok(p) && p.state == Unicode(digit) && 2 <= digit <= 4 && d < 16
    requires Last(p.lists) == before + [Unfinished(code)]
    ensures var next := code + d * Weight(digit);
      Leads(p, [HexDigit(d)], p.(lists := WithLast(p.lists, before + [if digit < 4 then Unfinished(next) else Literal(next)]),
                                 state := if digit < 4 then Unicode(digit + 1) else LiteralEnd))
  {
    hide HexDigit, Run;
    var next := code + d * Weight(digit);
    var b := if digit < 4 then Unfinished(next) else Literal(next);
    assert WithLast(before + [Unfinished(code)], b) == before + [b];
    LeadsByOne(p, HexDigit(d), p.(lists := WithLast(p.lists, before + [b]), state := if digit < 4 then Unicode(digit + 1) else LiteralEnd));
  }

  lemma LeadsByDigits(p: Parser, a: nat, b: nat, c: nat, d: nat)
    requires Ok(p) && p.state == Unicode(1) && p.lists != [] && a < 16 && b < 16 && c < 16 && d < 16
    ensures Leads(p, [HexDigit(a), HexDigit(b), HexDigit(c), HexDigit(d)],
                  With(p, [Literal(a * 4096 + b * 256 + c * 16 + d)], LiteralEnd))
  {
    hide HexDigit, Run, Step, Leads, Ok;
    var before := Last(p.lists);
    var p1 := With(p, [Unfinished(a * 4096)], Unicode(2));
    var p2 := With(p, [Unfinished(a * 4096 + b * 256)], Unicode(3));
    var p3 := With(p, [Unfinished(a * 4096 + b * 256 + c * 16)], Unicode(4));
    LeadsByFirstDigit(p, a);
    LeadsToOk(p, [HexDigit(a)], p1);
    LeadsByDigit(p1, before, a * 4096, b, 2);
    LeadsOn(p, [HexDigit(a)], p1, [HexDigit(b)], p2);
    LeadsToOk(p1, [HexDigit(b)], p2);
    LeadsByDigit(p2, before, a * 4096 + b * 256, c, 3);
    LeadsOn(p, [HexDigit(a)] + [HexDigit(b)], p2, [HexDigit(c)], p3);
    LeadsToOk(p2, [HexDigit(c)], p3);
    LeadsByDigit(p3, before, a * 4096 + b * 256 + c * 16, d, 4);
    LeadsOn(p, [HexDigit(a)] + [HexDigit(b)] + [HexDigit(c)], p3, [HexDigit(d)],
            With(p, [Literal(a * 4096 + b * 256 + c * 16 + d)], LiteralEnd));
    assert [HexDigit(a)] + [HexDigit(b)] + [HexDigit(c)] + [HexDigit(d)] == [HexDigit(a), HexDigit(b), HexDigit(c), HexDigit(d)];
  }

  lemma LeadsByCode(p: Parser, code: nat)
    requires Ok(p) && p.state == Unicode(1) && p.lists != [] && code < 65536
    ensures Leads(p, [HexDigit(code / 16 / 16 / 16), HexDigit(code / 16 / 16 % 16), HexDigit(code / 16 % 16), HexDigit(code % 16)],
                  With(p, [Literal(code)], LiteralEnd))
  {
    hide HexDigit, Leads, Ok;
    Digits(code);
    LeadsByDigits(p, code / 16 / 16 / 16, code / 16 / 16 % 16, code / 16 % 16, code % 16);
  }

  lemma LeadsToOk(p: Parser, s: string, q: Parser)
    requires Leads(p, s, q)
    ensures Ok(p) && Ok(q)
  {
  }

  lemma Digits(code: nat)
    requires code < 65536
    ensures code / 16 / 16 / 16 * 4096 + code / 16 / 16 % 16 * 256 + code / 16 % 16 * 16 + code % 16 == code
    ensures code / 16 / 16 / 16 < 16
  {
    DivMod(code, 16);
    DivMod(code / 16, 16);
    DivMod(code / 16 / 16, 16);
  }

  lemma LeadsBySpelling(p: Parser, x: Spelling)
    requires Ok(p) && p.state == InLiteral && Spells(x)
    ensures Leads(p, Spell(x), With(p, [Literal(CodeOf(x))], LiteralEnd))
  {
    hide HexDigit, Run;
    var q, e := With(p, [Literal(CodeOf(x))], LiteralEnd), p.(state := Escape);
    match x
    case Plain(c) => LeadsByOne(p, c, q);
    case Escaped(c) =>
      LeadsByOne(p, '\\', e);
      LeadsByOne(e, c, q);
      LeadsOn(p, ['\\'], e, [c], q);
      assert ['\\'] + [c] == Spell(x);
    case Coded(code) =>
      var u := p.(state := Unicode(1));
      LeadsByOne(p, '\\', e);
      LeadsByOne(e, 'u', u);
      LeadsOn(p, ['\\'], e, ['u'], u);
      LeadsByCode(u, code);
      var digits := [HexDigit(code / 16 / 16 / 16), HexDigit(code / 16 / 16 % 16), HexDigit(code / 16 % 16), HexDigit(code % 16)];
      LeadsOn(p, ['\\'] + ['u'], u, digits, q);
      assert ['\\'] + ['u'] + digits == Spell(x);
  }

  lemma {:induction false} LeadsByFallbackName(p: Parser, before: seq<Behavior>, name: string, more: string)
    requires Ok(p) && p.state == FallbackName && Last(p.lists) == before + [Fallback(name)]
    requires forall i | 0 <= i < |more| :: ContinuesKey(more[i])
    ensures Leads(p, more, p.(lists := WithLast(p.lists, before + [Fallback(name + more)])))
    decreases |more|
  {
    hide Run;
    if more == "" {
      assert name + more == name && WithLast(p.lists, Last(p.lists)) == p.lists;
      LeadsNowhere(p, more);
    } else {
      var q := p.(lists := WithLast(p.lists, before + [Fallback(name + [more[0]])]));
      assert WithLast(Last(p.lists), Fallback(name + [more[0]])) == before + [Fallback(name + [more[0]])];
      LeadsByOne(p, more[0], q);
      LeadsByFallbackName(q, before, name + [more[0]], more[1..]);
      assert (name + [more[0]]) + more[1..] == name + more && [more[0]] + more[1..] == more;
      LeadsOn(p, [more[0]], q, more[1..], p.(lists := WithLast(p.lists, before + [Fallback(name + more)])));
    }
  }

  lemma LeadsToFallback(p: Parser)
    requires Ok(p) && p.state == BehaviorStart
    ensures Leads(p, "fallback ", p.(state := FallbackStart))
  {
    hide Run;
    var w, f := p.(state := Word("allback", ToFallbackKey)), p.(state := FallbackStart);
    LeadsByOne(p, 'f', w);
    LeadsByWord(w, "allback", ToFallbackKey);
    LeadsOn(p, ['f'], w, "allback", f);
    LeadsByOne(f, ' ', f);
    LeadsOn(p, ['f'] + "allback", f, [' '], f);
    assert ['f'] + "allback" + [' '] == "fallback ";
  }

  lemma LeadsByFallback(p: Parser, key: string)
    requires Ok(p) && p.state == BehaviorStart && IsKeyName(key)
    ensures Leads(p, "fallback " + key, With(p, [Fallback(key)], FallbackName))
  {
    hide Run;
    var f := p.(state := FallbackStart);
    var n, q := With(p, [Fallback([key[0]])], FallbackName), With(p, [Fallback(key)], FallbackName);
    LeadsToFallback(p);
    LeadsByOne(f, key[0], n);
    LeadsByFallbackName(n, Last(p.lists), [key[0]], key[1..]);
    assert [key[0]] + key[1..] == key;
    LeadsOn(f, [key[0]], n, key[1..], q);
    LeadsOn(p, "fallback ", f, key, q);
  }

  lemma LeadsByWritten(p: Parser, b: Written)
    requires Ok(p) && p.state == BehaviorStart && Writable(b)
    ensures Leads(p, Write(b), With(p, [BehaviorOf(b)], StateAfter(b)))
  {
    hide Run, Spell;
    var q := With(p, [BehaviorOf(b)], StateAfter(b));
    match b
    case Quoted(x) =>
      var l, e := p.(state := InLiteral), With(p, [Literal(CodeOf(x))], LiteralEnd);
      LeadsByOne(p, '\'', l);
      LeadsBySpelling(l, x);
      LeadsOn(p, ['\''], l, Spell(x), e);
      LeadsByOne(e, '\'', q);
      LeadsOn(p, ['\''] + Spell(x), e, ['\''], q);
    case FallsBack(key) => LeadsByFallback(p, key);
    case Nothing =>
      var w := p.(state := Word("one", ToNone));
      LeadsByOne(p, 'n', w);
      LeadsByWord(w, "one", ToNone);
      LeadsOn(p, ['n'], w, "one", q);
      assert ['n'] + "one" == "none";
  }

  function WriteAll(behaviors: seq<Written>): string
    requires forall b | b in behaviors :: Writable(b)
  {
    if behaviors == [] then "" else " " + Write(behaviors[0]) + WriteAll(behaviors[1..])
  }

  function Meant(behaviors: seq<Written>): seq<Behavior> {
    if behaviors == [] then [] else [BehaviorOf(behaviors[0])] + Meant(behaviors[1..])
  }

  /** Between two behaviors, or after the last. */
  predicate Between(s: State) {
    s.BehaviorStart? || s.FallbackName?
  }

  lemma {:induction false} LeadsByBehaviors(p: Parser, behaviors: seq<Written>)
    requires Ok(p) && Between(p.state) && forall b | b in behaviors :: Writable(b)
    ensures Leads(p, WriteAll(behaviors) + ['\n'], With(p, Meant(behaviors), FilterStart))
    decreases |behaviors|
  {
    hide Run, Write, Step;
    if behaviors == [] {
      EndOfLine(p);
      assert Last(p.lists) + [] == Last(p.lists) && "" + ['\n'] == ['\n'];
    } else {
      var b, more := behaviors[0], WriteAll(behaviors[1..]) + ['\n'];
      var s := p.(state := BehaviorStart);
      var q, r := With(p, [BehaviorOf(b)], StateAfter(b)), With(p, Meant(behaviors), FilterStart);
      Blank(p);
      LeadsByWritten(s, b);
      LeadsOn(p, [' '], s, Write(b), q);
      LeadsByBehaviors(q, behaviors[1..]);
      assert Last(p.lists) + [BehaviorOf(b)] + Meant(behaviors[1..]) == Last(p.lists) + Meant(behaviors);
      LeadsOn(p, [' '] + Write(b), q, more, r);
      assert [' '] + Write(b) + more == WriteAll(behaviors) + ['\n'];
    }
  }

  lemma EndOfLine(p: Parser)
    requires Ok(p) && Between(p.state)
    ensures Leads(p, ['\n'], With(p, [], FilterStart))
  {
    hide Run;
    assert Last(p.lists) + [] == Last(p.lists) && WithLast(p.lists, Last(p.lists)) == p.lists;
    LeadsByOne(p, '\n', p.(state := FilterStart));
  }

  lemma Blank(p: Parser)
    requires Ok(p) && Between(p.state)
    ensures Leads(p, [' '], p.(state := BehaviorStart))
  {
    hide Run;
    LeadsByOne(p, ' ', p.(state := BehaviorStart));
  }

  // ---------------------------------------------------------------- the rules of a line

  predicate IsModifier(s: string) {
    s != "" && forall i | 0 <= i < |s| :: IsLower(s[i])
  }

  /** Modifiers that have to be held together. */
  predicate IsCombination(m: seq<string>) {
    m != [] && forall i | 0 <= i < |m| :: IsModifier(m[i])
  }

  function Plus(m: seq<string>): string {
    if m == [] then "" else ['+'] + m[0] + Plus(m[1..])
  }

  function WriteCombination(m: seq<string>): string
    requires IsCombination(m)
  {
    m[0] + Plus(m[1..])
  }

  predicate AreCombinations(combinations: seq<seq<string>>) {
    forall i | 0 <= i < |combinations| :: IsCombination(combinations[i])
  }

  function Commas(combinations: seq<seq<string>>): string
    requires AreCombinations(combinations)
  {
    if combinations == [] then "" else [','] + WriteCombination(combinations[0]) + Commas(combinations[1..])
  }

  /** The rules of a comma-separated list: one for each combination, all with the same behavior list. */
  function Rules(combinations: seq<seq<string>>, key: nat, list: nat): seq<Rule> {
    seq(|combinations|, i requires 0 <= i < |combinations| => Rule(key, combinations[i], list))
  }

  lemma {:induction false} LeadsByModifier(p: Parser, rules: seq<Rule>, m: seq<string>, name: string, more: string)
    requires Ok(p) && p.state == FilterName
    requires p.rules == rules + [Rule(Last(p.rules).key, m + [name], Last(p.rules).behaviors)]
    requires forall i | 0 <= i < |more| :: IsLower(more[i])
    ensures Leads(p, more, p.(rules := rules + [Last(p.rules).(modifiers := m + [name + more])]))
    decreases |more|
  {
    hide Run;
    if more == "" {
      assert name + more == name;
      LeadsNowhere(p, more);
    } else {
      var q := p.(rules := rules + [Last(p.rules).(modifiers := m + [name + [more[0]]])]);
      assert WithLast(m + [name], name + [more[0]]) == m + [name + [more[0]]];
      assert WithLast(p.rules, Last(p.rules).(modifiers := m + [name + [more[0]]])) == q.rules;
      LeadsByOne(p, more[0], q);
      LeadsByModifier(q, rules, m, name + [more[0]], more[1..]);
      assert (name + [more[0]]) + more[1..] == name + more && [more[0]] + more[1..] == more;
      LeadsOn(p, [more[0]], q, more[1..], p.(rules := rules + [Last(p.rules).(modifiers := m + [name + more])]));
    }
  }

  /** The parser with a changed last rule. */
  function Ruled(p: Parser, rules: seq<Rule>, r: Rule): Parser {
    p.(rules := rules + [r], state := FilterName)
  }

  lemma LeadsByFirstModifier(p: Parser, q: Parser, rules: seq<Rule>, r: Rule, m: seq<string>, name: string)
    requires Ok(p) && IsModifier(name) && r.modifiers == m
    requires q == Ruled(q, rules, r.(modifiers := m + [[name[0]]])) && Step(p, name[0]) == Some(q)
    ensures Leads(p, name, Ruled(q, rules, r.(modifiers := m + [name])))
  {
    hide Run, Step;
    LeadsByOne(p, name[0], q);
    LeadsByModifier(q, rules, m, [name[0]], name[1..]);
    assert [name[0]] + name[1..] == name;
    LeadsOn(p, [name[0]], q, name[1..], Ruled(q, rules, r.(modifiers := m + [name])));
  }

  lemma {:induction false} LeadsByPlus(p: Parser, rules: seq<Rule>, r: Rule, more: seq<string>)
    requires Ok(p) && p == Ruled(p, rules, r) && forall i | 0 <= i < |more| :: IsModifier(more[i])
    ensures Leads(p, Plus(more), Ruled(p, rules, r.(modifiers := r.modifiers + more)))
    decreases |more|
  {
    hide Run;
    if more == [] {
      assert r.modifiers + more == r.modifiers;
      LeadsNowhere(p, "");
    } else {
      var a, name := p.(state := FilterAnd), more[0];
      var q := Ruled(p, rules, r.(modifiers := r.modifiers + [[name[0]]]));
      var t := Ruled(p, rules, r.(modifiers := r.modifiers + [name]));
      LeadsByOne(p, '+', a);
      assert WithLast(p.rules, Last(q.rules)) == q.rules;
      LeadsByFirstModifier(a, q, rules, r, r.modifiers, name);
      LeadsOn(p, ['+'], a, name, t);
      LeadsByPlus(t, rules, r.(modifiers := r.modifiers + [name]), more[1..]);
      assert r.modifiers + [name] + more[1..] == r.modifiers + more;
      LeadsOn(p, ['+'] + name, t, Plus(more[1..]), Ruled(p, rules, r.(modifiers := r.modifiers + more)));
    }
  }

  /** A combination after the character that opened its rule. */
  lemma LeadsByCombination(p: Parser, q: Parser, rules: seq<Rule>, r: Rule, m: seq<string>)
    requires Ok(p) && IsCombination(m) && r.modifiers == []
    requires q == Ruled(q, rules, r.(modifiers := [[m[0][0]]])) && Step(p, m[0][0]) == Some(q)
    ensures Leads(p, WriteCombination(m), Ruled(q, rules, r.(modifiers := m)))
  {
    hide Run, Step, Plus;
    var t, u := Ruled(q, rules, r.(modifiers := [m[0]])), Ruled(q, rules, r.(modifiers := m));
    assert [] + [[m[0][0]]] == [[m[0][0]]] && [] + [m[0]] == [m[0]];
    LeadsByFirstModifier(p, q, rules, r, [], m[0]);
    LeadsByPlus(t, rules, r.(modifiers := [m[0]]), m[1..]);
    assert [m[0]] + m[1..] == m;
    LeadsOn(p, m[0], t, Plus(m[1..]), u);
  }

  lemma {:induction false} LeadsByCommas(p: Parser, key: nat, list: nat, combinations: seq<seq<string>>)
    requires Ok(p) && p.state == FilterName && AreCombinations(combinations) && key == |p.keys| - 1
    requires list == Last(p.rules).behaviors
    ensures Leads(p, Commas(combinations), p.(rules := p.rules + Rules(combinations, key, list)))
    decreases |combinations|
  {
    hide Run, WriteCombination, IsCombination;
    if combinations == [] {
      assert p.rules + Rules(combinations, key, list) == p.rules;
      LeadsNowhere(p, "");
    } else {
      var o, m := p.(state := FilterOr), combinations[0];
      assert IsCombination(m);
      FirstLetter(m);
      var q := Ruled(p, p.rules, Rule(key, [[m[0][0]]], list));
      var t := Ruled(p, p.rules, Rule(key, m, list));
      LeadsByOne(p, ',', o);
      LeadsByCombination(o, q, p.rules, Rule(key, [], list), m);
      LeadsOn(p, [','], o, WriteCombination(m), t);
      LeadsByCommas(t, key, list, combinations[1..]);
      assert Rules(combinations, key, list) == [Rule(key, m, list)] + Rules(combinations[1..], key, list);
      assert p.rules + [Rule(key, m, list)] + Rules(combinations[1..], key, list) == p.rules + Rules(combinations, key, list);
      LeadsOn(p, [','] + WriteCombination(m), t, Commas(combinations[1..]), p.(rules := p.rules + Rules(combinations, key, list)));
    }
  }

  lemma FirstLetter(m: seq<string>)
    requires IsCombination(m)
    ensures m != [] && m[0] != "" && IsLower(m[0][0])
  {
    assert IsModifier(m[0]);
  }

  /** What one line of a key's block says: which combinations have which behaviors. */
  datatype Line = Line(indent: string, combinations: seq<seq<string>>, behaviors: seq<Written>)

  predicate IsBlank(s: string) {
    forall i | 0 <= i < |s| :: s[i] == ' ' || s[i] == '\t' || s[i] == '\n'
  }

  predicate IsLine(l: Line) {
    IsBlank(l.indent) && l.combinations != [] && AreCombinations(l.combinations) && forall b | b in l.behaviors :: Writable(b)
  }

  function WriteLine(l: Line): string
    requires IsLine(l)
  {
    l.indent + WriteCombination(l.combinations[0]) + Commas(l.combinations[1..]) + [':'] + (WriteAll(l.behaviors) + ['\n'])
  }

  /** The tables with what one line adds: its rules, and one list for all of them. */
  function WithLine(p: Parser, l: Line): Parser
    requires p.keys != []
  {
    p.(rules := p.rules + Rules(l.combinations, |p.keys| - 1, |p.lists|), lists := p.lists + [Meant(l.behaviors)])
  }

  lemma LeadsByLine(p: Parser, l: Line)
    requires Ok(p) && p.state == FilterStart && IsLine(l)
    ensures Leads(p, WriteLine(l), WithLine(p, l))
  {
    hide Run, WriteCombination, Commas, WriteAll, Meant, IsCombination;
    var key, list, m := |p.keys| - 1, |p.lists|, l.combinations[0];
    assert IsCombination(m);
    FirstLetter(m);
    var n := p.(lists := p.lists + [[]]);
    var q := Ruled(n, p.rules, Rule(key, [[m[0][0]]], list));
    var t := Ruled(n, p.rules, Rule(key, m, list));
    var u := t.(rules := t.rules + Rules(l.combinations[1..], key, list));
    LeadsNowhere(p, l.indent);
    LeadsByCombination(p, q, p.rules, Rule(key, [], list), m);
    LeadsOn(p, l.indent, p, WriteCombination(m), t);
    LeadsByCommas(t, key, list, l.combinations[1..]);
    LeadsOn(p, l.indent + WriteCombination(m), t, Commas(l.combinations[1..]), u);
    FinishLine(p, l, u, key, list, l.indent + WriteCombination(m) + Commas(l.combinations[1..]));
  }

  lemma FinishLine(p: Parser, l: Line, u: Parser, key: nat, list: nat, head: string)
    requires Ok(p) && p.state == FilterStart && IsLine(l) && key == |p.keys| - 1 && list == |p.lists|
    requires Leads(p, head, u) && u.rules != [] && Last(u.rules).behaviors == list
    requires u == p.(state := FilterName, lists := p.lists + [[]],
                     rules := p.rules + [Rule(key, l.combinations[0], list)] + Rules(l.combinations[1..], key, list))
    ensures Leads(p, head + [':'] + (WriteAll(l.behaviors) + ['\n']), WithLine(p, l))
  {
    hide Run, WriteAll, Meant, IsCombination;
    var b := u.(state := BehaviorStart);
    LeadsByOne(u, ':', b);
    LeadsOn(p, head, u, [':'], b);
    LeadsByBehaviors(b, l.behaviors);
    assert [] + Meant(l.behaviors) == Meant(l.behaviors);
    assert WithLast(u.lists, [] + Meant(l.behaviors)) == p.lists + [Meant(l.behaviors)];
    assert Rules(l.combinations, key, list) == [Rule(key, l.combinations[0], list)] + Rules(l.combinations[1..], key, list);
    assert p.rules + [Rule(key, l.combinations[0], list)] + Rules(l.combinations[1..], key, list)
        == p.rules + Rules(l.combinations, key, list);
    LeadsOn(p, head + [':'], b, WriteAll(l.behaviors) + ['\n'], WithLine(p, l));
  }

  // ---------------------------------------------------------------- blocks and the whole file

  /** An empty line or a comment, before the type or between keys. */
  datatype Note = Empty | Comment(text: string)

  predicate IsNote(n: Note) {
    n.Comment? ==> '\n' !in n.text
  }

  function WriteNote(n: Note): string {
    match n
    case Empty => ['\n']
    case Comment(text) => ['#'] + text + ['\n']
  }

  function WriteNotes(notes: seq<Note>): string {
    if notes == [] then "" else WriteNote(notes[0]) + WriteNotes(notes[1..])
  }

  predicate AreNotes(notes: seq<Note>) {
    forall i | 0 <= i < |notes| :: IsNote(notes[i])
  }

  predicate Outside(s: State) {
    s.TypeStart? || s.KeyStart?
  }

  lemma LeadsByNote(p: Parser, n: Note)
    requires Ok(p) && Outside(p.state) && IsNote(n)
    ensures Leads(p, WriteNote(n), p)
  {
    hide Run;
    match n
    case Empty => LeadsByOne(p, '\n', p);
    case Comment(text) =>
      var c := p.(state := if p.state.TypeStart? then CommentBeforeType else CommentBeforeKey);
      LeadsByOne(p, '#', c);
      forall i | 0 <= i < |text|
        ensures Step(c, text[i]) == Some(c)
      {
        assert text[i] in text;
      }
      LeadsNowhere(c, text);
      LeadsOn(p, ['#'], c, text, c);
      LeadsByOne(c, '\n', p);
      LeadsOn(p, ['#'] + text, c, ['\n'], p);
  }

  lemma {:induction false} LeadsByNotes(p: Parser, notes: seq<Note>)
    requires Ok(p) && Outside(p.state) && AreNotes(notes)
    ensures Leads(p, WriteNotes(notes), p)
  {
    hide Run, Step, WriteNote, IsNote;
    if notes == [] {
      LeadsNowhere(p, "");
    } else {
      LeadsByNote(p, notes[0]);
      LeadsByNotes(p, notes[1..]);
      LeadsOn(p, WriteNote(notes[0]), p, WriteNotes(notes[1..]), p);
    }
  }

  function WriteLines(lines: seq<Line>): string
    requires forall i | 0 <= i < |lines| :: IsLine(lines[i])
  {
    if lines == [] then "" else WriteLine(lines[0]) + WriteLines(lines[1..])
  }

  /** The behavior lists of some lines: one for each. */
  function Lists(lines: seq<Line>): seq<seq<Behavior>> {
    if lines == [] then [] else [Meant(lines[0].behaviors)] + Lists(lines[1..])
  }

  /** The rules of some lines of one key, the lists counted from `list` on. */
  function RulesOf(lines: seq<Line>, key: nat, list: nat): seq<Rule> {
    if lines == [] then [] else Rules(lines[0].combinations, key, list) + RulesOf(lines[1..], key, list + 1)
  }

  lemma Regroup<T>(a: seq<T>, b: seq<T>, c: seq<T>)
    ensures (a + b) + c == a + (b + c)
  {
  }

  lemma {:induction false} LeadsByLines(p: Parser, lines: seq<Line>)
    requires Ok(p) && p.state == FilterStart && forall i | 0 <= i < |lines| :: IsLine(lines[i])
    ensures Leads(p, WriteLines(lines),
                  p.(rules := p.rules + RulesOf(lines, |p.keys| - 1, |p.lists|), lists := p.lists + Lists(lines)))
    decreases |lines|
  {
    hide Run, Step, WriteLine, IsLine, Meant, Rules;
    var key, list := |p.keys| - 1, |p.lists|;
    if lines == [] {
      assert p.rules + RulesOf(lines, key, list) == p.rules && p.lists + Lists(lines) == p.lists;
      LeadsNowhere(p, "");
    } else {
      var q := WithLine(p, lines[0]);
      LeadsByLine(p, lines[0]);
      LeadsByLines(q, lines[1..]);
      Regroup(p.rules, Rules(lines[0].combinations, key, list), RulesOf(lines[1..], key, list + 1));
      Regroup(p.lists, [Meant(lines[0].behaviors)], Lists(lines[1..]));
      LeadsOn(p, WriteLine(lines[0]), q, WriteLines(lines[1..]),
              p.(rules := p.rules + RulesOf(lines, key, list), lists := p.lists + Lists(lines)));
    }
  }

  datatype Block = Block(notes: seq<Note>, name: string, lines: seq<Line>, tail: string)

  predicate IsBlock(b: Block) {
    AreNotes(b.notes) && IsKeyName(b.name) && IsBlank(b.tail) && forall i | 0 <= i < |b.lines| :: IsLine(b.lines[i])
  }

  function WriteBlock(b: Block): string
    requires IsBlock(b)
  {
    WriteNotes(b.notes) + "key " + b.name + " {" + WriteLines(b.lines) + b.tail + ['}']
  }

  /** The tables with one more key. */
  function WithBlock(p: Parser, b: Block): Parser {
    Parser(KeyStart, p.type_, p.keys + [b.name], p.rules + RulesOf(b.lines, |p.keys|, |p.lists|), p.lists + Lists(b.lines))
  }

  lemma LeadsToKeyName(p: Parser)
    requires Ok(p) && Outside(p.state)
    ensures Leads(p, "key ", p.(state := KeyNameStart))
  {
    hide Run;
    var w, n := p.(state := Word("ey", ToKeyName)), p.(state := KeyNameStart);
    LeadsByOne(p, 'k', w);
    LeadsByWord(w, "ey", ToKeyName);
    LeadsOn(p, ['k'], w, "ey", n);
    LeadsByOne(n, ' ', n);
    LeadsOn(p, ['k'] + "ey", n, [' '], n);
    assert ['k'] + "ey" + [' '] == "key ";
  }

  lemma {:induction false} LeadsByKeyName(p: Parser, keys: seq<string>, name: string, more: string)
    requires Ok(p) && p.state == KeyName && p.keys == keys + [name] && forall i | 0 <= i < |more| :: ContinuesKey(more[i])
    ensures Leads(p, more, p.(keys := keys + [name + more]))
    decreases |more|
  {
    hide Run;
    if more == "" {
      assert name + more == name;
      LeadsNowhere(p, more);
    } else {
      var q := p.(keys := keys + [name + [more[0]]]);
      assert WithLast(p.keys, name + [more[0]]) == q.keys;
      LeadsByOne(p, more[0], q);
      LeadsByKeyName(q, keys, name + [more[0]], more[1..]);
      assert (name + [more[0]]) + more[1..] == name + more && [more[0]] + more[1..] == more;
      LeadsOn(p, [more[0]], q, more[1..], p.(keys := keys + [name + more]));
    }
  }

  lemma LeadsByKey(p: Parser, name: string)
    requires Ok(p) && Outside(p.state) && IsKeyName(name)
    ensures Leads(p, "key " + name + " {", p.(keys := p.keys + [name], state := FilterStart))
  {
    hide Run;
    var n := p.(state := KeyNameStart);
    var k, l := p.(keys := p.keys + [[name[0]]], state := KeyName), p.(keys := p.keys + [name], state := KeyName);
    var b, f := l.(state := BlockStart), l.(state := FilterStart);
    LeadsToKeyName(p);
    LeadsByOne(n, name[0], k);
    LeadsByKeyName(k, p.keys, [name[0]], name[1..]);
    assert [name[0]] + name[1..] == name;
    LeadsOn(n, [name[0]], k, name[1..], l);
    LeadsOn(p, "key ", n, name, l);
    LeadsByOne(l, ' ', b);
    LeadsByOne(b, '{', f);
    LeadsOn(l, [' '], b, ['{'], f);
    assert [' '] + ['{'] == " {";
    LeadsOn(p, "key " + name, l, " {", f);
  }

  lemma LeadsByBlock(p: Parser, b: Block)
    requires Ok(p) && Outside(p.state) && IsBlock(b)
    ensures Leads(p, WriteBlock(b), WithBlock(p, b))
  {
    hide Run, WriteNotes, WriteLines, RulesOf, Lists, AreNotes, IsKeyName, IsLine;
    var f := p.(keys := p.keys + [b.name], state := FilterStart);
    var l := f.(rules := p.rules + RulesOf(b.lines, |p.keys|, |p.lists|), lists := p.lists + Lists(b.lines));
    LeadsByNotes(p, b.notes);
    LeadsByKey(p, b.name);
    LeadsOn(p, WriteNotes(b.notes), p, "key " + b.name + " {", f);
    LeadsByLines(f, b.lines);
    LeadsOn(p, WriteNotes(b.notes) + ("key " + b.name + " {"), f, WriteLines(b.lines), l);
    LeadsNowhere(l, b.tail);
    LeadsOn(p, WriteNotes(b.notes) + ("key " + b.name + " {") + WriteLines(b.lines), l, b.tail, l);
    LeadsByOne(l, '}', WithBlock(p, b));
    LeadsOn(p, WriteNotes(b.notes) + ("key " + b.name + " {") + WriteLines(b.lines) + b.tail, l, ['}'], WithBlock(p, b));
    assert WriteNotes(b.notes) + ("key " + b.name + " {") == WriteNotes(b.notes) + "key " + b.name + " {";
  }

  function WriteBlocks(blocks: seq<Block>): string
    requires forall i | 0 <= i < |blocks| :: IsBlock(blocks[i])
  {
    if blocks == [] then "" else WriteBlock(blocks[0]) + WriteBlocks(blocks[1..])
  }

  function Names(blocks: seq<Block>): seq<string> {
    if blocks == [] then [] else [blocks[0].name] + Names(blocks[1..])
  }

  function AllLists(blocks: seq<Block>): seq<seq<Behavior>> {
    if blocks == [] then [] else Lists(blocks[0].lines) + AllLists(blocks[1..])
  }

  function AllRules(blocks: seq<Block>, key: nat, list: nat): seq<Rule> {
    if blocks == [] then []
    else RulesOf(blocks[0].lines, key, list) + AllRules(blocks[1..], key + 1, list + |blocks[0].lines|)
  }

  lemma {:induction false} OneListEach(lines: seq<Line>)
    ensures |Lists(lines)| == |lines|
  {
    if lines != [] {
      OneListEach(lines[1..]);
    }
  }

  lemma {:induction false} LeadsByBlocks(p: Parser, blocks: seq<Block>)
    requires Ok(p) && Outside(p.state) && forall i | 0 <= i < |blocks| :: IsBlock(blocks[i])
    ensures exists s :: Outside(s) && Leads(p, WriteBlocks(blocks),
      Parser(s, p.type_, p.keys + Names(blocks), p.rules + AllRules(blocks, |p.keys|, |p.lists|), p.lists + AllLists(blocks)))
    decreases |blocks|
  {
    hide Run, Step, WriteBlock, IsBlock, RulesOf, Lists, Leads, Ok;
    if blocks == [] {
      assert p.keys + Names(blocks) == p.keys && p.lists + AllLists(blocks) == p.lists;
      assert p.rules + AllRules(blocks, |p.keys|, |p.lists|) == p.rules;
      LeadsNowhere(p, "");
    } else {
      var q := WithBlock(p, blocks[0]);
      LeadsByBlock(p, blocks[0]);
      LeadsToOk(p, WriteBlock(blocks[0]), q);
      OneListEach(blocks[0].lines);
      LeadsByBlocks(q, blocks[1..]);
      assert q.keys + Names(blocks[1..]) == p.keys + Names(blocks);
      assert q.lists + AllLists(blocks[1..]) == p.lists + AllLists(blocks);
      assert q.rules + AllRules(blocks[1..], |q.keys|, |q.lists|) == p.rules + AllRules(blocks, |p.keys|, |p.lists|);
      var s :| Outside(s) && Leads(q, WriteBlocks(blocks[1..]), Parser(
        s, q.type_, q.keys + Names(blocks[1..]), q.rules + AllRules(blocks[1..], |q.keys|, |q.lists|), q.lists + AllLists(blocks[1..])));
      LeadsOn(p, WriteBlock(blocks[0]), q, WriteBlocks(blocks[1..]), Parser(
        s, p.type_, p.keys + Names(blocks), p.rules + AllRules(blocks, |p.keys|, |p.lists|), p.lists + AllLists(blocks)));
    }
  }

  datatype File = File(head: seq<Note>, type_: Option<string>, blocks: seq<Block>, foot: seq<Note>)

  predicate IsTypeName(s: string) {
    s != "" && forall i | 0 <= i < |s| :: IsUpper(s[i])
  }

  predicate IsFile(f: File) {
    && AreNotes(f.head) && AreNotes(f.foot) && (f.type_.Some? ==> IsTypeName(f.type_.value))
    && forall i | 0 <= i < |f.blocks| :: IsBlock(f.blocks[i])
  }

  function WriteType(t: Option<string>): string {
    match t
    case None => ""
    case Some(name) => "type " + name + ['\n']
  }

  function WriteFile(f: File): string
    requires IsFile(f)
  {
    WriteNotes(f.head) + WriteType(f.type_) + WriteBlocks(f.blocks) + WriteNotes(f.foot)
  }

  lemma {:induction false} LeadsByTypeName(p: Parser, name: string, more: string)
    requires Ok(p) && p.state == TypeName && p.type_ == Some(name) && forall i | 0 <= i < |more| :: IsUpper(more[i])
    ensures Leads(p, more, p.(type_ := Some(name + more)))
    decreases |more|
  {
    hide Run;
    if more == "" {
      assert name + more == name;
      LeadsNowhere(p, more);
    } else {
      var q := p.(type_ := Some(name + [more[0]]));
      LeadsByOne(p, more[0], q);
      LeadsByTypeName(q, name + [more[0]], more[1..]);
      assert (name + [more[0]]) + more[1..] == name + more && [more[0]] + more[1..] == more;
      LeadsOn(p, [more[0]], q, more[1..], p.(type_ := Some(name + more)));
    }
  }

  lemma LeadsByType(name: string)
    requires IsTypeName(name)
    ensures Leads(START, "type " + name + ['\n'], START.(type_ := Some(name)))
  {
    hide Run;
    var w, n := START.(state := Word("ype", ToTypeName)), START.(state := TypeNameStart, type_ := Some(""));
    var t, u := START.(state := TypeName, type_ := Some([name[0]])), START.(state := TypeName, type_ := Some(name));
    LeadsByOne(START, 't', w);
    LeadsByWord(w, "ype", ToTypeName);
    LeadsOn(START, ['t'], w, "ype", n);
    LeadsByOne(n, ' ', n);
    LeadsOn(START, ['t'] + "ype", n, [' '], n);
    assert ['t'] + "ype" + [' '] == "type " && "" + [name[0]] == [name[0]];
    LeadsByOne(n, name[0], t);
    LeadsByTypeName(t, [name[0]], name[1..]);
    assert [name[0]] + name[1..] == name;
    LeadsOn(n, [name[0]], t, name[1..], u);
    LeadsOn(START, "type ", n, name, u);
    LeadsByOne(u, '\n', START.(type_ := Some(name)));
    LeadsOn(START, "type " + name, u, ['\n'], START.(type_ := Some(name)));
  }

  /** A key map that is written out and parsed comes back: the type, the keys, one behavior list for every
      line, and one rule for every combination of a line, all of them with that line's list. */
  lemma WrittenIsParsed(f: File)
    requires IsFile(f)
    ensures var r := Run(START, WriteFile(f));
      && r.Some? && Outside(r.value.state) && r.value.type_ == f.type_
      && r.value.keys == Names(f.blocks) && r.value.rules == AllRules(f.blocks, 0, 0) && r.value.lists == AllLists(f.blocks)
  {
    hide Run, Step, IsBlock, IsTypeName, WriteNotes, WriteBlocks, AllRules, AllLists, Names;
    var t := START.(type_ := f.type_);
    LeadsByNotes(START, f.head);
    if f.type_.Some? {
      LeadsByType(f.type_.value);
      LeadsOn(START, WriteNotes(f.head), START, WriteType(f.type_), t);
    } else {
      assert WriteNotes(f.head) + "" == WriteNotes(f.head);
    }
    LeadsByBlocks(t, f.blocks);
    assert [] + Names(f.blocks) == Names(f.blocks) && [] + AllLists(f.blocks) == AllLists(f.blocks);
    assert [] + AllRules(f.blocks, 0, 0) == AllRules(f.blocks, 0, 0);
    var s :| Outside(s) && Leads(t, WriteBlocks(f.blocks),
                                 Parser(s, f.type_, Names(f.blocks), AllRules(f.blocks, 0, 0), AllLists(f.blocks)));
    var u := Parser(s, f.type_, Names(f.blocks), AllRules(f.blocks, 0, 0), AllLists(f.blocks));
    LeadsOn(START, WriteNotes(f.head) + WriteType(f.type_), t, WriteBlocks(f.blocks), u);
    LeadsByNotes(u, f.foot);
    LeadsOn(START, WriteNotes(f.head) + WriteType(f.type_) + WriteBlocks(f.blocks), u, WriteNotes(f.foot), u);
  }

  /** The list of a rule tells the line it comes from: rules of different lines never share one. */
  lemma {:induction false} LinesDoNotShare(lines: seq<Line>, key: nat, list: nat, i: nat)
    requires i < |RulesOf(lines, key, list)|
    ensures list <= RulesOf(lines, key, list)[i].behaviors < list + |lines|
    ensures RulesOf(lines, key, list)[i].modifiers in lines[RulesOf(lines, key, list)[i].behaviors - list].combinations
  {
    var first := Rules(lines[0].combinations, key, list);
    if i >= |first| {
      LinesDoNotShare(lines[1..], key, list + 1, i - |first|);
    }
  }
}
