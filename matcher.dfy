/**
 * Rule compilation and evaluation (src/helpers/create_matcher.ts).
 *
 * A rule `{ test, include, exclude }` compiles to a predicate over a query
 * string and a context. Regular-expression matching is external: it is the
 * `RegexEngine` parameter, which answers whether the pattern with a given
 * source and flags matches a value.
 */
module Matcher {
  import opened Wrappers
  import opened Values

  /** `new RegExp(source, flags).test(value)`, for a regular expression without the `g` or `y` flag. */
  type RegexEngine = (string, string, string) -> bool

  /** A user-supplied predicate `(value, context) => boolean`. */
  type Predicate = (string, Context) -> bool

  /** One condition of a rule, as the caller wrote it. */
  datatype Condition =
    | Absent                  // false, null, undefined and every other falsy value but ""
    | Pattern(source: string) // a string; "" is falsy
    | Regex(source: string, flags: string) // a RegExp object
    | Function(fn: Predicate)
    | Invalid                 // any other truthy value

  /** `include` and `exclude` accept one condition or a list of them. */
  datatype Conditions = Single(condition: Condition) | List(conditions: seq<Condition>)

  datatype Rule = Rule(test: Condition, includes: Conditions, excludes: Conditions)

  /** A compiled condition. */
  datatype AssertPredicate = RegexTest(source: string, flags: string) | Call(fn: Predicate)

  /** The compiled form of a rule: what the returned closure captures. */
  datatype CompiledMatcher = CompiledMatcher(
    test: Option<AssertPredicate>,
    includes: seq<AssertPredicate>,
    excludes: seq<AssertPredicate>)

  /** `Invalid rule: ...`, raised when a rule is compiled. */
  datatype Error = InvalidRule

  predicate Falsy(c: Condition) {
    c.Absent? || (c.Pattern? && c.source == "")
  }

  function Holds(p: AssertPredicate, re: RegexEngine, value: string, ctx: Context): bool {
    match p
    case RegexTest(source, flags) => re(source, flags, value)
    case Call(fn) => fn(value, ctx)
  }

  /** normalize_match_condition: drop falsy conditions, turn strings into patterns, reject the rest. */
  function NormalizeMatchCondition(c: Condition): (r: Result<Option<AssertPredicate>, Error>)
    ensures r.Failure? <==> c.Invalid?
    ensures r == Success(None) <==> Falsy(c)
    ensures c.Pattern? && c.source != "" ==> r == Success(Some(RegexTest(c.source, "")))
    ensures c.Regex? ==> r == Success(Some(RegexTest(c.source, c.flags)))
    ensures c.Function? ==> r == Success(Some(Call(c.fn)))
  {
    match c
    case Absent => Success(None)
    case Pattern(source) => if source == "" then Success(None) else Success(Some(RegexTest(source, "")))
    case Regex(source, flags) => Success(Some(RegexTest(source, flags)))
    case Function(fn) => Success(Some(Call(fn)))
    case Invalid => Failure(InvalidRule)
  }

  /** The `reduce` of normalize_match_rules over a list: a filter-map that throws on the first invalid condition. */
  function NormalizeList(cs: seq<Condition>): (r: Result<seq<AssertPredicate>, Error>)
    ensures r.Failure? <==> exists i :: 0 <= i < |cs| && cs[i].Invalid?
    ensures r.Success? ==> |r.value| <= |cs|
    ensures r.Success? && (forall i :: 0 <= i < |cs| ==> Falsy(cs[i])) ==> r.value == []
    ensures r.Success? && (exists i :: 0 <= i < |cs| && !Falsy(cs[i])) ==> r.value != []
  {
    if cs == [] then Success([])
    else
      var head := NormalizeMatchCondition(cs[0]);
      var tail := NormalizeList(cs[1..]);
      if head.Failure? then Failure(head.error)
      else if tail.Failure? then Failure(tail.error)
      else
        var kept := if head.value.Some? then [head.value.value] else [];
        assert forall i :: 1 <= i < |cs| ==> cs[i] == cs[1..][i - 1];
        Success(kept + tail.value)
  }

  /** normalize_match_rules: absent conditions give no predicates; one condition is a one-element list. */
  function NormalizeMatchRules(conditions: Conditions): (r: Result<seq<AssertPredicate>, Error>)
    ensures r == NormalizeList(if conditions.Single? then [conditions.condition] else conditions.conditions)
  {
    match conditions
    case Single(c) =>
      var one := [c];
      assert one[1..] == [] && one[0] == c;
      assert NormalizeList(one[1..]) == Success([]);
      (match NormalizeMatchCondition(c)
       case Failure(e) => Failure(e)
       case Success(p) =>
         var kept := if p.Some? then [p.value] else [];
         assert kept + [] == kept;
         Success(kept))
    case List(cs) => NormalizeList(cs)
  }

  /** `matches.some(predicate => predicate(value, context))`. */
  function SomeHolds(ps: seq<AssertPredicate>, re: RegexEngine, value: string, ctx: Context): bool {
    if ps == [] then false
    else Holds(ps[0], re, value, ctx) || SomeHolds(ps[1..], re, value, ctx)
  }

  /** `matches.every(predicate => predicate(value, context))`. */
  function EveryHolds(ps: seq<AssertPredicate>, re: RegexEngine, value: string, ctx: Context): bool {
    if ps == [] then true
    else Holds(ps[0], re, value, ctx) && EveryHolds(ps[1..], re, value, ctx)
  }

  lemma {:induction false} SomeIsExists(ps: seq<AssertPredicate>, re: RegexEngine, value: string, ctx: Context)
    ensures SomeHolds(ps, re, value, ctx) <==> exists i :: 0 <= i < |ps| && Holds(ps[i], re, value, ctx)
  {
    if ps != [] {
      SomeIsExists(ps[1..], re, value, ctx);
      assert forall i :: 1 <= i < |ps| ==> ps[i] == ps[1..][i - 1];
    }
  }

  lemma {:induction false} EveryIsForall(ps: seq<AssertPredicate>, re: RegexEngine, value: string, ctx: Context)
    ensures EveryHolds(ps, re, value, ctx) <==> forall i :: 0 <= i < |ps| ==> Holds(ps[i], re, value, ctx)
  {
    if ps != [] {
      EveryIsForall(ps[1..], re, value, ctx);
      assert forall i :: 1 <= i < |ps| ==> ps[i] == ps[1..][i - 1];
    }
  }

  /**
   * create_assert_predicate: an empty list accepts everything; an include list
   * (`pattern` true) accepts when ANY predicate holds; an exclude list
   * (`pattern` false) accepts unless EVERY predicate holds.
   */
  function CreateAssertPredicate(ps: seq<AssertPredicate>, pattern: bool, re: RegexEngine, value: string, ctx: Context): (r: bool)
    ensures ps == [] ==> r
    ensures ps != [] && pattern ==> (r <==> exists i :: 0 <= i < |ps| && Holds(ps[i], re, value, ctx))
    ensures ps != [] && !pattern ==> (r <==> exists i :: 0 <= i < |ps| && !Holds(ps[i], re, value, ctx))
  {
    SomeIsExists(ps, re, value, ctx);
    EveryIsForall(ps, re, value, ctx);
    if |ps| == 0 then true
    else if pattern then SomeHolds(ps, re, value, ctx)
    else EveryHolds(ps, re, value, ctx) == false
  }

  /** The closure create_matcher returns: `test && (include ? exclude : false)`. */
  function IsMatch(m: CompiledMatcher, re: RegexEngine, value: string, ctx: Context): (r: bool)
    ensures r <==>
      && (m.test.Some? ==> Holds(m.test.value, re, value, ctx))
      && (m.includes == [] || exists i :: 0 <= i < |m.includes| && Holds(m.includes[i], re, value, ctx))
      && (m.excludes == [] || exists i :: 0 <= i < |m.excludes| && !Holds(m.excludes[i], re, value, ctx))
  {
    var inner :=
      if CreateAssertPredicate(m.includes, true, re, value, ctx)
      then CreateAssertPredicate(m.excludes, false, re, value, ctx)
      else false;
    match m.test
    case None => inner
    case Some(t) => Holds(t, re, value, ctx) && inner
  }

  /**
   * create_matcher: compile the test, then include, then exclude; an invalid
   * condition anywhere in the rule makes compilation throw.
   */
  function CreateMatcher(rule: Rule): (r: Result<CompiledMatcher, Error>)
    ensures r.Failure? <==> HasInvalid(rule)
    ensures r.Success? ==>
      && r.value.test == NormalizeMatchCondition(rule.test).value
      && Success(r.value.includes) == NormalizeMatchRules(rule.includes)
      && Success(r.value.excludes) == NormalizeMatchRules(rule.excludes)
  {
    var test :- NormalizeMatchCondition(rule.test);
    var included :- NormalizeMatchRules(rule.includes);
    var excluded :- NormalizeMatchRules(rule.excludes);
    Success(CompiledMatcher(test, included, excluded))
  }

  predicate ConditionsHaveInvalid(cs: Conditions) {
    match cs
    case Single(c) => c.Invalid?
    case List(l) => exists i :: 0 <= i < |l| && l[i].Invalid?
  }

  predicate HasInvalid(rule: Rule) {
    rule.test.Invalid? || ConditionsHaveInvalid(rule.includes) || ConditionsHaveInvalid(rule.excludes)
  }

  predicate ConditionsAllFalsy(cs: Conditions) {
    match cs
    case Single(c) => Falsy(c)
    case List(l) => forall i :: 0 <= i < |l| ==> Falsy(l[i])
  }

  /** A rule whose test, include and exclude are all absent or falsy matches every value in every context. */
  lemma EmptyRuleMatchesEverything(rule: Rule, re: RegexEngine)
    requires Falsy(rule.test) && ConditionsAllFalsy(rule.includes) && ConditionsAllFalsy(rule.excludes)
    ensures CreateMatcher(rule).Success?
    ensures forall value, ctx :: IsMatch(CreateMatcher(rule).value, re, value, ctx)
  {
  }

  /** Falsy conditions are dropped: `include: [null, false]` compiles like no include at all. */
  lemma FalsyConditionsAreDropped(cs: seq<Condition>)
    requires forall i :: 0 <= i < |cs| ==> Falsy(cs[i])
    ensures NormalizeMatchRules(List(cs)) == NormalizeMatchRules(Single(Absent)) == Success([])
  {
  }

  /**
   * The filter-map splits over concatenation: a list compiles iff both of its
   * halves do, and then to the first half's predicates followed by the second's.
   */
  lemma {:induction false} NormalizeListAppend(a: seq<Condition>, b: seq<Condition>)
    ensures NormalizeList(a + b).Success? <==> NormalizeList(a).Success? && NormalizeList(b).Success?
    ensures NormalizeList(a + b).Success? ==> NormalizeList(a + b).value == NormalizeList(a).value + NormalizeList(b).value
  {
    if a == [] {
      assert a + b == b;
    } else {
      assert (a + b)[0] == a[0] && (a + b)[1..] == a[1..] + b;
      NormalizeListAppend(a[1..], b);
    }
  }

  /** The predicates a list compiles to are exactly those of its truthy conditions. */
  lemma {:induction false} KeptMembers(cs: seq<Condition>, p: AssertPredicate)
    requires NormalizeList(cs).Success?
    ensures p in NormalizeList(cs).value <==> exists i :: 0 <= i < |cs| && NormalizeMatchCondition(cs[i]) == Success(Some(p))
  {
    if cs != [] {
      var tail := cs[1..];
      KeptMembers(tail, p);
      if p in NormalizeList(tail).value {
        var j :| 0 <= j < |tail| && NormalizeMatchCondition(tail[j]) == Success(Some(p));
        assert cs[j + 1] == tail[j];
      }
      if exists i :: 0 <= i < |cs| && NormalizeMatchCondition(cs[i]) == Success(Some(p)) {
        var i :| 0 <= i < |cs| && NormalizeMatchCondition(cs[i]) == Success(Some(p));
        if i > 0 {
          assert tail[i - 1] == cs[i];
        }
      }
    }
  }

  /** A mixed list, concretely: `[null, "^a", ""]` compiles like the single condition `"^a"`. */
  lemma MixedListKeepsTruthy(source: string)
    requires source != ""
    ensures NormalizeMatchRules(List([Absent, Pattern(source), Pattern("")])) == NormalizeMatchRules(Single(Pattern(source)))
    ensures NormalizeMatchRules(Single(Pattern(source))) == Success([RegexTest(source, "")])
  {
    var cs := [Absent, Pattern(source), Pattern("")];
    assert cs == [Absent] + ([Pattern(source)] + [Pattern("")]);
    NormalizeListAppend([Absent], [Pattern(source)] + [Pattern("")]);
    NormalizeListAppend([Pattern(source)], [Pattern("")]);
    assert [Absent][1..] == [] && [Pattern(source)][1..] == [] && [Pattern("")][1..] == [];
    var one := [Pattern(source)];
    assert one[0] == Pattern(source) && NormalizeList(one[1..]) == Success([]);
    assert NormalizeMatchCondition(one[0]) == Success(Some(RegexTest(source, "")));
    assert [RegexTest(source, "")] + [] == [RegexTest(source, "")] && [] + [RegexTest(source, "")] == [RegexTest(source, "")];
    assert [Absent][0] == Absent && NormalizeList([Absent]) == Success([]);
    assert [Pattern("")][0] == Pattern("") && NormalizeList([Pattern("")]) == Success([]);
    assert NormalizeList([Pattern(source)] + [Pattern("")]) == Success([RegexTest(source, "")]);
    assert NormalizeList(cs) == Success([RegexTest(source, "")]);
  }

  /**
   * Include is an OR: with an include list holding at least one truthy
   * condition (and no test or exclude), a value matches iff one of the truthy
   * conditions, compiled, holds; the falsy ones play no part.
   */
  lemma IncludeIsAny(cs: seq<Condition>, re: RegexEngine, value: string, ctx: Context)
    requires forall i :: 0 <= i < |cs| ==> !cs[i].Invalid?
    requires exists i :: 0 <= i < |cs| && !Falsy(cs[i])
    ensures var r := CreateMatcher(Rule(Absent, List(cs), Single(Absent)));
      && r.Success?
      && (IsMatch(r.value, re, value, ctx) <==>
            exists i :: 0 <= i < |cs| && !Falsy(cs[i]) && Holds(NormalizeMatchCondition(cs[i]).value.value, re, value, ctx))
  {
    CompiledListHolds(cs, re, value, ctx, true);
  }

  /**
   * Exclude is "not all": with an exclude list holding at least one truthy
   * condition (and no test or include), a value is rejected iff every truthy
   * condition, compiled, holds.
   */
  lemma ExcludeNeedsAll(cs: seq<Condition>, re: RegexEngine, value: string, ctx: Context)
    requires forall i :: 0 <= i < |cs| ==> !cs[i].Invalid?
    requires exists i :: 0 <= i < |cs| && !Falsy(cs[i])
    ensures var r := CreateMatcher(Rule(Absent, Single(Absent), List(cs)));
      && r.Success?
      && (!IsMatch(r.value, re, value, ctx) <==>
            forall i :: 0 <= i < |cs| && !Falsy(cs[i]) ==> Holds(NormalizeMatchCondition(cs[i]).value.value, re, value, ctx))
  {
    CompiledListHolds(cs, re, value, ctx, false);
  }

  /** Some compiled predicate of a valid list has outcome `outcome` iff some truthy condition, compiled, has it. */
  lemma CompiledListHolds(cs: seq<Condition>, re: RegexEngine, value: string, ctx: Context, outcome: bool)
    requires forall i :: 0 <= i < |cs| ==> !cs[i].Invalid?
    ensures NormalizeList(cs).Success?
    ensures var ps := NormalizeList(cs).value;
            (exists j :: 0 <= j < |ps| && Holds(ps[j], re, value, ctx) == outcome) <==>
            (exists i :: 0 <= i < |cs| && !Falsy(cs[i]) && Holds(NormalizeMatchCondition(cs[i]).value.value, re, value, ctx) == outcome)
  {
    var ps := NormalizeList(cs).value;
    if j :| 0 <= j < |ps| && Holds(ps[j], re, value, ctx) == outcome {
      KeptMembers(cs, ps[j]);
      var i :| 0 <= i < |cs| && NormalizeMatchCondition(cs[i]) == Success(Some(ps[j]));
      assert !Falsy(cs[i]) && Holds(NormalizeMatchCondition(cs[i]).value.value, re, value, ctx) == outcome;
    }
    if i :| 0 <= i < |cs| && !Falsy(cs[i]) && Holds(NormalizeMatchCondition(cs[i]).value.value, re, value, ctx) == outcome {
      var p := NormalizeMatchCondition(cs[i]).value.value;
      KeptMembers(cs, p);
      var j :| 0 <= j < |ps| && ps[j] == p;
    }
  }

  /** A list of valid truthy conditions compiles to exactly one predicate per condition, in order. */
  lemma {:induction false} KeptAll(cs: seq<Condition>)
    requires forall i :: 0 <= i < |cs| ==> !cs[i].Invalid? && !Falsy(cs[i])
    ensures NormalizeList(cs).Success?
    ensures |NormalizeList(cs).value| == |cs|
    ensures forall i :: 0 <= i < |cs| ==> Some(NormalizeList(cs).value[i]) == NormalizeMatchCondition(cs[i]).value
  {
    if cs != [] {
      KeptAll(cs[1..]);
      var tail := NormalizeList(cs[1..]).value;
      var r := NormalizeList(cs).value;
      assert r == [NormalizeMatchCondition(cs[0]).value.value] + tail;
      forall i | 1 <= i < |cs|
        ensures Some(r[i]) == NormalizeMatchCondition(cs[i]).value
      {
        assert r[i] == tail[i - 1] && cs[i] == cs[1..][i - 1];
      }
    }
  }

  /**
   * Adding a predicate to a non-empty include or exclude list never turns a
   * match into a non-match: OR and "not all" are both monotone.
   */
  lemma AddingConditionKeepsMatch(m: CompiledMatcher, p: AssertPredicate, k: nat, toInclude: bool,
                                  re: RegexEngine, value: string, ctx: Context)
    requires if toInclude then m.includes != [] && k <= |m.includes| else m.excludes != [] && k <= |m.excludes|
    requires IsMatch(m, re, value, ctx)
    ensures var m' := if toInclude then m.(includes := m.includes[..k] + [p] + m.includes[k..])
                      else m.(excludes := m.excludes[..k] + [p] + m.excludes[k..]);
            IsMatch(m', re, value, ctx)
  {
    var m' := if toInclude then m.(includes := m.includes[..k] + [p] + m.includes[k..])
              else m.(excludes := m.excludes[..k] + [p] + m.excludes[k..]);
    var old_list := if toInclude then m.includes else m.excludes;
    var new_list := if toInclude then m'.includes else m'.excludes;
    var i :| 0 <= i < |old_list| && (Holds(old_list[i], re, value, ctx) == toInclude);
    var j := if i < k then i else i + 1;
    assert new_list[j] == old_list[i];
  }

  /** The asymmetry, concretely: of two exclude predicates, one failing lets the value through. */
  lemma OneFailingExcludeAdmits(a: AssertPredicate, b: AssertPredicate, re: RegexEngine, value: string, ctx: Context)
    requires Holds(a, re, value, ctx) && !Holds(b, re, value, ctx)
    ensures IsMatch(CompiledMatcher(None, [], [a, b]), re, value, ctx)
    ensures !IsMatch(CompiledMatcher(None, [], [a, a]), re, value, ctx)
  {
    assert !Holds([a, b][1], re, value, ctx);
  }
}
