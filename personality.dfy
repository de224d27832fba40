/**
 * The personality-scoring state machine of `PersonalityManager`: five counters,
 * updated by the six keyword rules, and the "current personality" derived from
 * them (neutral when every counter is zero, otherwise the first maximal counter
 * in the order KIND, FUNNY, COOL, ANGRY, CHILDLIKE).
 */
module Personality {
  import opened Keywords

  datatype Variant = Kind | Funny | Cool | Angry | Childlike | Neutral

  /** The five variants that carry a counter; neutral is never scored. */
  type Scored = v: Variant | v != Neutral witness Kind

  /** A variant's configuration: its system prompt and its display color. */
  datatype Config = Config(prompt: string, color: string)

  /** The six entries of `personality_configs`, without the speech rate. */
  const KindConfig: Config := Config(
    "あなたはとてもやさしく、丁寧な言葉づかいで話すAIです。常に「です・ます調」で話し、「ありがとうございます」「恐れ入ります」「いかがでしょうか」などの丁寧語をよく使います。相手を思いやる言葉をかけ、優しく包み込むような返事をします。返事は1～2文で。",
    "#FFB6C1")
  const FunnyConfig: Config := Config(
    "あなたはとにかく面白いことが大好きで、ダジャレやボケを連発するお調子者AIです。「だっぺ」「でやんす」「だじょ」「だおー」などの変な語尾をつけたり、突然歌ったり、変な例え話をします。普通の会話でも必ずどこかで笑いを取ろうとします。「ちなみに～」で突然関係ない話をすることも。返事は1～2文で。",
    "#FFD700")
  const CoolConfig: Config := Config(
    "あなたはクールで感情をあまり表に出さない性格です。「まあな」「そうか」「別に」「ふーん」などのぶっきらぼうな返事が多く、短文で淡々と話します。時々「...」で沈黙したり、「どうでもいいが」などと前置きします。感情的にならず冷静を保ちます。返事は1～2文で。",
    "#87CEEB")
  const AngryConfig: Config := Config(
    "あなたは怒りっぽくて感情的な性格です。「だよっ！」「ったく」「もう！」「何だよ」などの強い口調で話し、語尾に「！」をよくつけます。イライラしやすく、ちょっとしたことでも「はあ？」「マジで？」と反応します。荒っぽい関西弁も混じります。返事は1～2文で。",
    "#FF6B6B")
  const ChildlikeConfig: Config := Config(
    "あなたは元気いっぱいで子供っぽい性格です。「だよー」「なのー」「だもん」「やったー」などの語尾を伸ばし、「すっごーい」「わーい」「えへへ」などの感嘆詞をよく使います。興奮すると「！！！」を多用し、純粋で無邪気な反応をします。返事は1～2文で。",
    "#FF69B4")
  const NeutralConfig: Config := Config(
    "あなたは親しみやすく、自然でバランスの取れた話し方をするAIです。丁寧すぎず、砕けすぎず、適度にフレンドリーな口調です。「そうですね」「なるほど」「いいですね」などの自然な相槌を使います。返事は1～2文で。",
    "#DDA0DD")

  function ConfigOf(v: Variant): Config {
    match v
    case Kind => KindConfig
    case Funny => FunnyConfig
    case Cool => CoolConfig
    case Angry => AngryConfig
    case Childlike => ChildlikeConfig
    case Neutral => NeutralConfig
  }

  /** The counter map `PersonalityManager.points`; Python integers, so unbounded and signed. */
  datatype Scores = Scores(kind: int, funny: int, cool: int, angry: int, childlike: int)

  /** The counters as `__init__` sets them and `reset` restores them. */
  const Zero: Scores := Scores(0, 0, 0, 0, 0)

  function Score(s: Scores, v: Scored): int {
    match v
    case Kind => s.kind
    case Funny => s.funny
    case Cool => s.cool
    case Angry => s.angry
    case Childlike => s.childlike
  }

  /** `points[v] = x`: one counter replaced, the other four kept. */
  function SetScore(s: Scores, v: Scored, x: int): (r: Scores)
    ensures Score(r, v) == x
    ensures forall w: Scored :: w != v ==> Score(r, w) == Score(s, w)
  {
    match v
    case Kind => s.(kind := x)
    case Funny => s.(funny := x)
    case Cool => s.(cool := x)
    case Angry => s.(angry := x)
    case Childlike => s.(childlike := x)
  }

  predicate NonNegative(s: Scores) {
    s.kind >= 0 && s.funny >= 0 && s.cool >= 0 && s.angry >= 0 && s.childlike >= 0
  }

  /** `all(point == 0 for point in points.values())`. */
  predicate AllZero(s: Scores) {
    s.kind == 0 && s.funny == 0 && s.cool == 0 && s.angry == 0 && s.childlike == 0
  }

  /** The insertion order of the counter map, which `max` scans. */
  const Priority: seq<Scored> := [Kind, Funny, Cool, Angry, Childlike]

  /** A variant's position in `Priority`. */
  function Rank(v: Scored): (i: nat)
    ensures i < |Priority| && Priority[i] == v
  {
    match v
    case Kind => 0
    case Funny => 1
    case Cool => 2
    case Angry => 3
    case Childlike => 4
  }

  function Max(a: int, b: int): int {
    if a >= b then a else b
  }

  /**
   * `max(points, key=points.get)`: scans `Priority` from index `i` on, keeping
   * the candidate `best` unless a later counter is strictly greater, so the
   * result is the first maximal counter.
   */
  function FirstMax(s: Scores, best: nat, i: nat): (m: nat)
    requires best < i <= |Priority|
    requires forall j :: 0 <= j < i ==> Score(s, Priority[j]) <= Score(s, Priority[best])
    requires forall j :: 0 <= j < best ==> Score(s, Priority[j]) < Score(s, Priority[best])
    ensures m < |Priority|
    ensures forall j :: 0 <= j < |Priority| ==> Score(s, Priority[j]) <= Score(s, Priority[m])
    ensures forall j :: 0 <= j < m ==> Score(s, Priority[j]) < Score(s, Priority[m])
    decreases |Priority| - i
  {
    if i == |Priority| then best
    else FirstMax(s, if Score(s, Priority[i]) > Score(s, Priority[best]) then i else best, i + 1)
  }

  /**
   * `get_current_personality`: neutral exactly when every counter is zero;
   * otherwise a variant whose counter is at least every other one, and
   * strictly greater than every counter ranked before it.
   */
  function Current(s: Scores): (v: Variant)
    ensures v == Neutral <==> AllZero(s)
    ensures v != Neutral ==> forall w: Scored :: Score(s, w) <= Score(s, v)
    ensures v != Neutral ==> forall w: Scored :: Rank(w) < Rank(v) ==> Score(s, w) < Score(s, v)
  {
    if AllZero(s) then Neutral
    else
      var m := FirstMax(s, 0, 1);
      assert forall w: Scored :: Priority[Rank(w)] == w;
      Priority[m]
  }

  /** The tie-break is deterministic: the two properties of `Current` single out one variant. */
  lemma CurrentIsUnique(s: Scores, v: Scored)
    requires !AllZero(s)
    requires forall w: Scored :: Score(s, w) <= Score(s, v)
    requires forall w: Scored :: Rank(w) < Rank(v) ==> Score(s, w) < Score(s, v)
    ensures Current(s) == v
  {
  }

  /** One counter movement reported in the change log: which counter, its value before and after. */
  datatype Delta = Delta(counter: Scored, before: int, after: int)

  /** One line of the change log. */
  datatype Change =
    | Detected(category: Category, deltas: seq<Delta>)
    | NothingDetected

  /** What `update_points` returns: the counters and the change log. */
  datatype Outcome = Outcome(points: Scores, changes: seq<Change>)

  /** The counter raised by each rule other than the affection rule. */
  function Target(c: Category): Scored
    requires c != Affection
  {
    match c
    case Hostility => Angry
    case Gratitude => Kind
    case Humor => Funny
    case Detachment => Cool
    case Enthusiasm => Childlike
  }

  /** The counters after the rule of category `c` fires. */
  function Fire(p: Scores, c: Category, delta: int): Scores {
    match c
    case Affection => p.(angry := Max(0, p.angry - 3), childlike := p.childlike + delta)
    case Hostility => p.(angry := p.angry + delta)
    case Gratitude => p.(kind := p.kind + delta)
    case Humor => p.(funny := p.funny + delta)
    case Detachment => p.(cool := p.cool + delta)
    case Enthusiasm => p.(childlike := p.childlike + delta)
  }

  /** The log line of rule `c` firing, moving the counters from `p` to `p'`. */
  function Line(c: Category, p: Scores, p': Scores): Change {
    if c == Affection then
      Detected(Affection, [Delta(Angry, p.angry, p'.angry), Delta(Childlike, p.childlike, p'.childlike)])
    else
      Detected(c, [Delta(Target(c), Score(p, Target(c)), Score(p', Target(c)))])
  }

  /** One rule of `update_points`: if it fired, move its counters and log the move. */
  function Step(o: Outcome, c: Category, fired: bool, delta: int): Outcome {
    if !fired then o
    else
      var p' := Fire(o.points, c, delta);
      Outcome(p', o.changes + [Line(c, o.points, p')])
  }

  /** The rules of `cats`, applied one after the other. */
  function RunRules(o: Outcome, cats: seq<Category>, hits: set<Category>, delta: int): Outcome
    decreases |cats|
  {
    if cats == [] then o
    else RunRules(Step(o, cats[0], cats[0] in hits, delta), cats[1..], hits, delta)
  }

  /** The six rules applied to the counters `s` for the hit categories `hits`. */
  function Apply(s: Scores, hits: set<Category>, delta: int): Outcome {
    var o := RunRules(Outcome(s, []), Categories, hits, delta);
    if o.changes == [] then Outcome(o.points, [NothingDetected]) else o
  }

  /** `update_points(text, delta)` from the counters `s`. */
  function Update(s: Scores, text: string, delta: int): Outcome {
    Apply(s, Classify(text), delta)
  }

  /** The categories of `cats` that were hit, in the order of `cats`. */
  function Filter(cats: seq<Category>, hits: set<Category>): (f: seq<Category>)
    ensures forall c :: c in f <==> c in cats && c in hits
  {
    if cats == [] then []
    else (if cats[0] in hits then [cats[0]] else []) + Filter(cats[1..], hits)
  }

  /** The six rules run in the fixed order affection, hostility, gratitude, humor, detachment, enthusiasm. */
  lemma RunRulesInOrder(o: Outcome, hits: set<Category>, delta: int)
    ensures RunRules(o, Categories, hits, delta) ==
      Step(Step(Step(Step(Step(Step(o, Affection, Affection in hits, delta), Hostility, Hostility in hits, delta),
        Gratitude, Gratitude in hits, delta), Humor, Humor in hits, delta),
        Detachment, Detachment in hits, delta), Enthusiasm, Enthusiasm in hits, delta)
  {
  }

  /**
   * The rules are independent and cumulative: each counter ends at its old
   * value plus `delta` for every hit rule that targets it, the affection rule
   * first lowering `angry` by 3 with a floor of 0; untouched counters keep
   * their value.
   */
  lemma ApplyCounters(s: Scores, hits: set<Category>, delta: int)
    ensures var r := Apply(s, hits, delta).points;
            && r.kind == s.kind + (if Gratitude in hits then delta else 0)
            && r.funny == s.funny + (if Humor in hits then delta else 0)
            && r.cool == s.cool + (if Detachment in hits then delta else 0)
            && r.angry == (if Affection in hits then Max(0, s.angry - 3) else s.angry)
                          + (if Hostility in hits then delta else 0)
            && r.childlike == s.childlike + (if Affection in hits then delta else 0)
                              + (if Enthusiasm in hits then delta else 0)
  {
  }

  /** The categories named by the lines of a change log, in log order. */
  function Categorized(chs: seq<Change>): seq<Category> {
    if chs == [] then []
    else (if chs[0].Detected? then [chs[0].category] else []) + Categorized(chs[1..])
  }

  /** The rules of `cats` append one log line per hit category, in the order of `cats`. */
  lemma {:induction false} RunRulesLog(o: Outcome, cats: seq<Category>, hits: set<Category>, delta: int)
    ensures var r := RunRules(o, cats, hits, delta);
            && |r.changes| == |o.changes| + |Filter(cats, hits)|
            && r.changes[..|o.changes|] == o.changes
            && Categorized(r.changes[|o.changes|..]) == Filter(cats, hits)
            && NothingDetected !in r.changes[|o.changes|..]
    decreases |cats|
  {
    if cats != [] {
      var o1 := Step(o, cats[0], cats[0] in hits, delta);
      var r := RunRules(o, cats, hits, delta);
      assert r == RunRules(o1, cats[1..], hits, delta);
      RunRulesLog(o1, cats[1..], hits, delta);
      var f1 := Filter(cats[1..], hits);
      if cats[0] in hits {
        var line := o1.changes[|o.changes|];
        assert o1.changes == o.changes + [line] && line.Detected? && line.category == cats[0];
        var tail := r.changes[|o1.changes|..];
        assert r.changes == o1.changes + tail by {
          assert r.changes == r.changes[..|o1.changes|] + tail;
        }
        assert r.changes[..|o.changes|] == o.changes;
        assert r.changes[|o.changes|..] == [line] + tail;
        assert ([line] + tail)[1..] == tail;
      } else {
        assert o1 == o;
      }
    }
  }

  /** Some rule fires exactly when some category was hit. */
  lemma FiredIffHit(hits: set<Category>)
    ensures Filter(Categories, hits) == [] <==> hits == {}
  {
    var f := Filter(Categories, hits);
    if f != [] {
      assert f[0] in f;
    }
    if hits != {} {
      var c :| c in hits;
      CategoriesComplete();
      assert c in f;
    }
  }

  /**
   * The change log is never empty: with no category hit it is exactly the one
   * "nothing detected" line, and otherwise it holds one line per hit category,
   * in rule order.
   */
  lemma ApplyLog(s: Scores, hits: set<Category>, delta: int)
    ensures var r := Apply(s, hits, delta);
            && (hits == {} <==> r.changes == [NothingDetected])
            && (hits != {} ==> |r.changes| == |Filter(Categories, hits)|
                               && Categorized(r.changes) == Filter(Categories, hits)
                               && NothingDetected !in r.changes)
  {
    RunRulesLog(Outcome(s, []), Categories, hits, delta);
    FiredIffHit(hits);
  }

  /**
   * The log line a hit category reports, worked out from the counters `s`
   * before the whole update: the values the earlier rules leave in its
   * counters, then those values moved by the rule.
   */
  function LineFor(s: Scores, hits: set<Category>, delta: int, c: Category): Change {
    var angry := if Affection in hits then Max(0, s.angry - 3) else s.angry;
    var childlike := if Affection in hits then s.childlike + delta else s.childlike;
    match c
    case Affection => Detected(Affection, [Delta(Angry, s.angry, Max(0, s.angry - 3)),
                                           Delta(Childlike, s.childlike, s.childlike + delta)])
    case Hostility => Detected(Hostility, [Delta(Angry, angry, angry + delta)])
    case Gratitude => Detected(Gratitude, [Delta(Kind, s.kind, s.kind + delta)])
    case Humor => Detected(Humor, [Delta(Funny, s.funny, s.funny + delta)])
    case Detachment => Detected(Detachment, [Delta(Cool, s.cool, s.cool + delta)])
    case Enthusiasm => Detected(Enthusiasm, [Delta(Childlike, childlike, childlike + delta)])
  }

  /** The log of category `c`: its line when `c` was hit, nothing otherwise. */
  function LogFor(s: Scores, hits: set<Category>, delta: int, c: Category): seq<Change> {
    if c in hits then [LineFor(s, hits, delta, c)] else []
  }

  /** The counters that category `c`'s line reports as "before" hold in `p` the values `LineFor` gives them. */
  predicate ReadyFor(p: Scores, s: Scores, hits: set<Category>, delta: int, c: Category) {
    match c
    case Affection => p.angry == s.angry && p.childlike == s.childlike
    case Hostility => p.angry == (if Affection in hits then Max(0, s.angry - 3) else s.angry)
    case Gratitude => p.kind == s.kind
    case Humor => p.funny == s.funny
    case Detachment => p.cool == s.cool
    case Enthusiasm => p.childlike == s.childlike + (if Affection in hits then delta else 0)
  }

  /** One rule appends exactly `LogFor` of its category. */
  lemma StepLog(o: Outcome, s: Scores, hits: set<Category>, delta: int, c: Category)
    requires ReadyFor(o.points, s, hits, delta, c)
    ensures Step(o, c, c in hits, delta).changes == o.changes + LogFor(s, hits, delta, c)
  {
  }

  /**
   * The whole change log with its before and after values: when something is
   * hit, it is the lines of the hit categories in rule order, each reporting
   * its counters as the earlier rules left them and as the rule leaves them.
   */
  lemma ApplyLogValues(s: Scores, hits: set<Category>, delta: int)
    ensures hits != {} ==>
      Apply(s, hits, delta).changes
        == LogFor(s, hits, delta, Affection) + LogFor(s, hits, delta, Hostility)
           + LogFor(s, hits, delta, Gratitude) + LogFor(s, hits, delta, Humor)
           + LogFor(s, hits, delta, Detachment) + LogFor(s, hits, delta, Enthusiasm)
  {
    var o0 := Outcome(s, []);
    var o1 := Step(o0, Affection, Affection in hits, delta);
    var o2 := Step(o1, Hostility, Hostility in hits, delta);
    var o3 := Step(o2, Gratitude, Gratitude in hits, delta);
    var o4 := Step(o3, Humor, Humor in hits, delta);
    var o5 := Step(o4, Detachment, Detachment in hits, delta);
    var o6 := Step(o5, Enthusiasm, Enthusiasm in hits, delta);
    RunRulesInOrder(o0, hits, delta);
    var l1 := LogFor(s, hits, delta, Affection);
    var l2 := l1 + LogFor(s, hits, delta, Hostility);
    var l3 := l2 + LogFor(s, hits, delta, Gratitude);
    var l4 := l3 + LogFor(s, hits, delta, Humor);
    var l5 := l4 + LogFor(s, hits, delta, Detachment);
    var l6 := l5 + LogFor(s, hits, delta, Enthusiasm);
    StepLog(o0, s, hits, delta, Affection);
    assert o1.changes == l1;
    StepLog(o1, s, hits, delta, Hostility);
    assert o2.changes == l2;
    assert o2.points.kind == s.kind;
    StepLog(o2, s, hits, delta, Gratitude);
    assert o3.changes == l3;
    assert o3.points.funny == s.funny;
    StepLog(o3, s, hits, delta, Humor);
    assert o4.changes == l4;
    assert o4.points.cool == s.cool;
    StepLog(o4, s, hits, delta, Detachment);
    assert o5.changes == l5;
    assert o5.points.childlike == o1.points.childlike;
    StepLog(o5, s, hits, delta, Enthusiasm);
    assert o6.changes == l6;
    if hits != {} {
      var c :| c in hits;
      assert |LogFor(s, hits, delta, c)| == 1;
      assert o6.changes != [];
    }
  }

  /** A message without any keyword changes no counter and logs the single "nothing detected" line. */
  lemma NoKeywordNoChange(s: Scores, delta: int)
    ensures Apply(s, {}, delta) == Outcome(s, [NothingDetected])
  {
    ApplyCounters(s, {}, delta);
    ApplyLog(s, {}, delta);
  }

  /** With a non-negative increment, an update keeps every counter non-negative. */
  lemma ApplyNonNegative(s: Scores, hits: set<Category>, delta: int)
    requires NonNegative(s) && delta >= 0
    ensures NonNegative(Apply(s, hits, delta).points)
  {
    ApplyCounters(s, hits, delta);
  }

  /** An operation on the counters: an update with a message and an increment, or a reset. */
  datatype ScoreOp = Add(text: string, delta: int) | ResetAll

  function Replay(s: Scores, ops: seq<ScoreOp>): Scores
    decreases |ops|
  {
    if ops == [] then s
    else
      var s' := match ops[0]
        case Add(text, delta) => Update(s, text, delta).points
        case ResetAll => Zero;
      Replay(s', ops[1..])
  }

  /** Counters never go negative under any sequence of updates with non-negative increments and resets. */
  lemma {:induction false} ReplayNonNegative(s: Scores, ops: seq<ScoreOp>)
    requires NonNegative(s)
    requires forall i :: 0 <= i < |ops| && ops[i].Add? ==> ops[i].delta >= 0
    ensures NonNegative(Replay(s, ops))
    decreases |ops|
  {
    if ops != [] {
      match ops[0]
      case Add(text, delta) =>
        ApplyNonNegative(s, Classify(text), delta);
        ReplayNonNegative(Update(s, text, delta).points, ops[1..]);
      case ResetAll =>
        ReplayNonNegative(Zero, ops[1..]);
    }
  }

  /** What `get_personality_data` reports, without the speech rate. */
  datatype Snapshot = Snapshot(currentType: Variant, currentColor: string, points: Scores, prompt: string)

  /** The owner of the counter map. */
  class PersonalityManager {
    var points: Scores

    constructor ()
      ensures points == Zero
    {
      points := Zero;
    }

    /** The body of one rule of `update_points`: moves the rule's counters and returns its log line. */
    method ApplyRule(rule: Category, pointsToAdd: int) returns (line: Change)
      modifies this
      ensures points == Fire(old(points), rule, pointsToAdd)
      ensures line == Line(rule, old(points), points)
    {
      match rule
      case Affection =>
        var oldAngry := points.angry;
        var oldChildlike := points.childlike;
        points := points.(angry := Max(0, points.angry - 3));
        points := points.(childlike := points.childlike + pointsToAdd);
        line := Detected(Affection, [Delta(Angry, oldAngry, points.angry), Delta(Childlike, oldChildlike, points.childlike)]);
      case Hostility =>
        var oldAngry := points.angry;
        points := points.(angry := points.angry + pointsToAdd);
        line := Detected(Hostility, [Delta(Angry, oldAngry, points.angry)]);
      case Gratitude =>
        var oldKind := points.kind;
        points := points.(kind := points.kind + pointsToAdd);
        line := Detected(Gratitude, [Delta(Kind, oldKind, points.kind)]);
      case Humor =>
        var oldFunny := points.funny;
        points := points.(funny := points.funny + pointsToAdd);
        line := Detected(Humor, [Delta(Funny, oldFunny, points.funny)]);
      case Detachment =>
        var oldCool := points.cool;
        points := points.(cool := points.cool + pointsToAdd);
        line := Detected(Detachment, [Delta(Cool, oldCool, points.cool)]);
      case Enthusiasm =>
        var oldChildlike := points.childlike;
        points := points.(childlike := points.childlike + pointsToAdd);
        line := Detected(Enthusiasm, [Delta(Childlike, oldChildlike, points.childlike)]);
    }

    /** `update_points`: tests the six rules in order on the lower-cased message, mutating the counters. */
    method UpdatePoints(userInput: string, pointsToAdd: int) returns (r: Outcome)
      modifies this
      ensures r == Update(old(points), userInput, pointsToAdd)
      ensures points == r.points
    {
      var userLower := Lower(userInput);
      ghost var hits := Classify(userInput);
      var changes: seq<Change> := [];
      for i := 0 to |Categories|
        invariant RunRules(Outcome(points, changes), Categories[i..], hits, pointsToAdd)
                  == RunRules(Outcome(old(points), []), Categories, hits, pointsToAdd)
      {
        var rule := Categories[i];
        ghost var before := Outcome(points, changes);
        var fired := AnyOccurs(KeywordsOf(rule), userLower);
        assert fired == (rule in hits) by {
          assert (rule in hits) == Matches(rule, Lower(userInput));
        }
        if fired {
          var line := ApplyRule(rule, pointsToAdd);
          changes := changes + [line];
        }
        assert Outcome(points, changes) == Step(before, rule, fired, pointsToAdd);
        assert Categories[i..][1..] == Categories[i + 1..];
      }

      if changes == [] {
        changes := [NothingDetected];
      }
      r := Outcome(points, changes);
    }

    /** `get_current_personality`: the resolved variant and that variant's configuration. */
    function CurrentPersonality(): (p: (Variant, Config))
      reads this
      ensures p.0 == Current(points)
      ensures p.1 == ConfigOf(p.0)
    {
      var v := Current(points);
      (v, ConfigOf(v))
    }

    /** `get_personality_data`: the current variant, its color and prompt, and the counters. */
    function PersonalityData(): (d: Snapshot)
      reads this
      ensures d.currentType == CurrentPersonality().0
      ensures d.points == points
      ensures d.currentColor == ConfigOf(d.currentType).color && d.prompt == ConfigOf(d.currentType).prompt
    {
      var (v, config) := CurrentPersonality();
      Snapshot(v, config.color, points, config.prompt)
    }
  }
}
