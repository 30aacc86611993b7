/**
 * The L-system engine of src/lib/lsystem.ts: rewriting an axiom for a number
 * of generations under a length cap (generateSentence), and the turtle that
 * walks the resulting sentence into trunk segments, leaves and bounds
 * (interpretSentence).
 */
module LSystem {
  import opened Numeric

  // ---------------------------------------------------------------------------
  // Sentence generation
  // ---------------------------------------------------------------------------

  /** Rewriting rules: one replacement string per character. */
  type Rules = map<char, string>

  /** `rules[char] ?? char`: a character without a rule stands for itself. */
  function Replacement(rules: Rules, c: char): string
  {
    if c in rules then rules[c] else [c]
  }

  /** Every character of s replaced, left to right, with no cap. */
  function Expand(rules: Rules, s: string): string
  {
    if |s| == 0 then [] else Expand(rules, s[..|s| - 1]) + Replacement(rules, s[|s| - 1])
  }

  /**
   * The number of characters the inner loop consumes, searching from k on: the
   * first j > k whose expanded prefix reaches maxLength, or all of s.
   */
  function Cut(rules: Rules, s: string, maxLength: int, k: nat): (j: nat)
    requires k <= |s|
    ensures k <= j <= |s|
    decreases |s| - k
  {
    if k == |s| then |s|
    else if |Expand(rules, s[..k + 1])| >= maxLength then k + 1
    else Cut(rules, s, maxLength, k + 1)
  }

  /** One generation: the expansion of s, stopped as soon as it reaches maxLength. */
  function NextGeneration(rules: Rules, s: string, maxLength: int): string
  {
    Expand(rules, s[..Cut(rules, s, maxLength, 0)])
  }

  /** `iterations` generations, stopping early once a generation reaches maxLength. */
  function Generate(rules: Rules, s: string, iterations: int, maxLength: int): string
    decreases iterations
  {
    if iterations <= 0 then s
    else
      var next := NextGeneration(rules, s, maxLength);
      if |next| >= maxLength then next else Generate(rules, next, iterations - 1, maxLength)
  }

  lemma {:induction false} CutBounds(rules: Rules, s: string, maxLength: int, k: nat)
    requires k <= |s|
    ensures k <= Cut(rules, s, maxLength, k) <= |s|
    ensures k < |s| ==> k < Cut(rules, s, maxLength, k)
    ensures Cut(rules, s, maxLength, k) == |s| || |Expand(rules, s[..Cut(rules, s, maxLength, k)])| >= maxLength
    ensures forall j :: k < j < Cut(rules, s, maxLength, k) ==> |Expand(rules, s[..j])| < maxLength
    decreases |s| - k
  {
    if k < |s| && |Expand(rules, s[..k + 1])| < maxLength {
      CutBounds(rules, s, maxLength, k + 1);
    }
  }

  /** Expansion distributes over concatenation. */
  lemma {:induction false} ExpandConcat(rules: Rules, a: string, b: string)
    ensures Expand(rules, a + b) == Expand(rules, a) + Expand(rules, b)
    decreases |b|
  {
    if |b| == 0 {
      assert a + b == a;
    } else {
      assert (a + b)[..|a + b| - 1] == a + b[..|b| - 1];
      ExpandConcat(rules, a, b[..|b| - 1]);
    }
  }

  /** A sentence none of whose characters has a rule is its own expansion. */
  lemma {:induction false} ExpandWithoutRules(rules: Rules, s: string)
    requires forall i :: 0 <= i < |s| ==> s[i] !in rules
    ensures Expand(rules, s) == s
  {
    if |s| > 0 {
      ExpandWithoutRules(rules, s[..|s| - 1]);
    }
  }

  /** Each replacement is at most `longest` characters long (and a plain character is one). */
  predicate ReplacementsAtMost(rules: Rules, longest: int)
  {
    1 <= longest && forall c :: c in rules ==> |rules[c]| <= longest
  }

  /**
   * One generation is the expansion of a prefix of s; it is the whole expansion
   * when that stays below the cap, and otherwise it is the shortest expanded
   * prefix that reaches the cap.
   */
  lemma NextGenerationIsCutExpansion(rules: Rules, s: string, maxLength: int)
    ensures exists j :: (0 <= j <= |s| && NextGeneration(rules, s, maxLength) == Expand(rules, s[..j])
                         && (j == |s| || |Expand(rules, s[..j])| >= maxLength)
                         && forall i :: 0 < i < j ==> |Expand(rules, s[..i])| < maxLength)
    ensures |Expand(rules, s)| < maxLength ==> NextGeneration(rules, s, maxLength) == Expand(rules, s)
  {
    var j := Cut(rules, s, maxLength, 0);
    CutBounds(rules, s, maxLength, 0);
    if |Expand(rules, s)| < maxLength && j < |s| {
      assert s[..j] + s[j..] == s;
      ExpandConcat(rules, s[..j], s[j..]);
      assert false;
    }
    assert s[..|s|] == s;
  }

  /** A whole expansion that stays below the cap is the next generation. */
  lemma NextGenerationBelowCap(rules: Rules, s: string, maxLength: int)
    requires |Expand(rules, s)| < maxLength
    ensures NextGeneration(rules, s, maxLength) == Expand(rules, s)
  {
    var j := Cut(rules, s, maxLength, 0);
    CutBounds(rules, s, maxLength, 0);
    if j < |s| {
      assert s[..j] + s[j..] == s;
      ExpandConcat(rules, s[..j], s[j..]);
      assert false;
    }
    assert s[..|s|] == s;
  }

  /**
   * The cap is soft: a generation overshoots maxLength by less than the longest
   * replacement, because the inner loop stops only after appending one.
   */
  lemma NextGenerationLengthBound(rules: Rules, s: string, maxLength: int, longest: int)
    requires ReplacementsAtMost(rules, longest)
    ensures |NextGeneration(rules, s, maxLength)| <= MaxInt(maxLength - 1, 0) + longest
  {
    var j := Cut(rules, s, maxLength, 0);
    CutBounds(rules, s, maxLength, 0);
    if j > 0 {
      assert s[..j] == s[..j - 1] + [s[j - 1]];
      assert s[..j][..j - 1] == s[..j - 1];
      assert |Expand(rules, s[..j - 1])| <= MaxInt(maxLength - 1, 0) by {
        if j - 1 > 0 {
          assert |Expand(rules, s[..j - 1])| < maxLength;
        }
      }
    }
  }

  /** With at least one generation, the result obeys the same soft cap. */
  lemma {:induction false} GenerateLengthBound(rules: Rules, s: string, iterations: int, maxLength: int, longest: int)
    requires ReplacementsAtMost(rules, longest) && iterations >= 1
    ensures |Generate(rules, s, iterations, maxLength)| <= MaxInt(maxLength - 1, 0) + longest
    decreases iterations
  {
    var next := NextGeneration(rules, s, maxLength);
    NextGenerationLengthBound(rules, s, maxLength, longest);
    if |next| < maxLength && iterations > 1 {
      GenerateLengthBound(rules, next, iterations - 1, maxLength, longest);
    }
  }

  /** Without rules that apply, every generation leaves the sentence as it is. */
  lemma {:induction false} GenerateWithoutRules(rules: Rules, s: string, iterations: int, maxLength: int)
    requires forall i :: 0 <= i < |s| ==> s[i] !in rules
    requires |s| < maxLength
    ensures Generate(rules, s, iterations, maxLength) == s
    decreases iterations
  {
    if iterations > 0 {
      ExpandWithoutRules(rules, s);
      NextGenerationBelowCap(rules, s, maxLength);
      GenerateWithoutRules(rules, s, iterations - 1, maxLength);
    }
  }

  /**
   * Once a generation reaches the cap no further generation runs: more
   * iterations give the same sentence.
   */
  lemma {:induction false} CapStopsGeneration(rules: Rules, s: string, iterations: int, more: nat, maxLength: int)
    requires iterations >= 1 && |Generate(rules, s, iterations, maxLength)| >= maxLength
    ensures Generate(rules, s, iterations + more, maxLength) == Generate(rules, s, iterations, maxLength)
    decreases iterations
  {
    var next := NextGeneration(rules, s, maxLength);
    if |next| < maxLength {
      CapStopsGeneration(rules, next, iterations - 1, more, maxLength);
    }
  }

  /** Lindenmayer's algae: A -> AB, B -> A; no iterations leave the axiom as it is. */
  lemma AlgaeExample()
    ensures Generate(map['A' := "AB", 'B' := "A"], "A", 0, 100) == "A"
    ensures Generate(map['A' := "AB", 'B' := "A"], "A", 2, 100) == "ABA"
    ensures Generate(map['A' := "AB", 'B' := "A"], "A", 3, 100) == "ABAAB"
  {
    var rules := map['A' := "AB", 'B' := "A"];
    GenerationExample(rules, "A", 100, "AB");
    GenerationExample(rules, "AB", 100, "ABA");
    GenerationExample(rules, "ABA", 100, "ABAAB");
  }

  lemma GenerationExample(rules: Rules, s: string, maxLength: int, expected: string)
    requires Expand(rules, s) == expected && |expected| < maxLength
    ensures NextGeneration(rules, s, maxLength) == expected
  {
    NextGenerationBelowCap(rules, s, maxLength);
  }

  /** generateSentence: the nested loops with both early exits. */
  method GenerateSentence(axiom: string, rules: Rules, iterations: int, maxLength: int) returns (sentence: string)
    ensures sentence == Generate(rules, axiom, iterations, maxLength)
  {
    sentence := axiom;
    var i := 0;
    while i < iterations
      invariant Generate(rules, sentence, iterations - i, maxLength) == Generate(rules, axiom, iterations, maxLength)
      decreases iterations - i
    {
      var next := "";
      var k := 0;
      while k < |sentence|
        invariant 0 <= k <= |sentence|
        invariant next == Expand(rules, sentence[..k])
        invariant Cut(rules, sentence, maxLength, k) == Cut(rules, sentence, maxLength, 0)
      {
        var c := sentence[k];
        next := next + (if c in rules then rules[c] else [c]);
        assert sentence[..k + 1][..k] == sentence[..k];
        k := k + 1;
        if |next| >= maxLength {
          break;
        }
      }
      assert sentence[..|sentence|] == sentence;
      sentence := next;
      i := i + 1;
      if |sentence| >= maxLength {
        break;
      }
    }
  }

  /** The cap cuts a generation short and stops the run: F -> FF from "F" under a cap of 5. */
  lemma OvershootExample()
    ensures Generate(map['F' := "FF"], "F", 10, 5) == "FFFFFF"
  {
    var rules := map['F' := "FF"];
    DoublingExpansions();
    GenerationExample(rules, "F", 5, "FF");
    GenerationExample(rules, "FF", 5, "FFFF");
    DoublingCut();
    assert Generate(rules, "FFFF", 8, 5) == "FFFFFF";
    assert Generate(rules, "FF", 9, 5) == "FFFFFF";
  }

  lemma DoublingExpansions()
    ensures Expand(map['F' := "FF"], "F") == "FF"
    ensures Expand(map['F' := "FF"], "FF") == "FFFF"
    ensures Expand(map['F' := "FF"], "FFF") == "FFFFFF"
  {
    var rules := map['F' := "FF"];
    assert Replacement(rules, 'F') == "FF";
    assert Expand(rules, "F") == Expand(rules, []) + "FF" by { assert "F"[..0] == []; }
    assert Expand(rules, "FF") == Expand(rules, "F") + "FF" by { assert "FF"[..1] == "F"; }
    assert Expand(rules, "FFF") == Expand(rules, "FF") + "FF" by { assert "FFF"[..2] == "FF"; }
  }

  /** The third doubling stops after three of the four characters. */
  lemma DoublingCut()
    ensures NextGeneration(map['F' := "FF"], "FFFF", 5) == "FFFFFF"
  {
    var rules := map['F' := "FF"];
    var s := "FFFF";
    DoublingExpansions();
    assert s[..1] == "F" && s[..2] == "FF" && s[..3] == "FFF";
    assert Cut(rules, s, 5, 2) == 3;
    assert Cut(rules, s, 5, 1) == 3;
    assert Cut(rules, s, 5, 0) == 3;
  }

  // ---------------------------------------------------------------------------
  // Turtle interpretation
  // ---------------------------------------------------------------------------

  datatype Vec3 = Vec3(x: real, y: real, z: real)

  function Add(a: Vec3, b: Vec3): Vec3 { Vec3(a.x + b.x, a.y + b.y, a.z + b.z) }

  function Scale(v: Vec3, k: real): Vec3 { Vec3(v.x * k, v.y * k, v.z * k) }

  /** Component-wise Vector3.min and Vector3.max. */
  function MinVec(a: Vec3, b: Vec3): Vec3 { Vec3(Min(a.x, b.x), Min(a.y, b.y), Min(a.z, b.z)) }

  function MaxVec(a: Vec3, b: Vec3): Vec3 { Vec3(Max(a.x, b.x), Max(a.y, b.y), Max(a.z, b.z)) }

  const Origin := Vec3(0.0, 0.0, 0.0)

  /** The three rotation axes: Z for + and -, X for & and ^, Y for / and backslash. */
  datatype Axis = ZAxis | XAxis | YAxis

  /** One rotation by `degrees` about `axis`. */
  datatype Turn = Turn(axis: Axis, degrees: real)

  /**
   * The turtle's rotation as the sequence of turns multiplied into it so far;
   * quaternion multiplication on the right becomes appending.
   */
  type Orientation = seq<Turn>

  /**
   * The unit heading of a rotation: the up vector rotated and normalised. The
   * quaternion arithmetic is outside the model, so the heading is a parameter.
   */
  type Heading = Orientation -> Vec3

  /** The fields of LSystemConfig the turtle reads. */
  datatype TurtleConfig = TurtleConfig(
    angle: real,
    step: real,
    width: real,
    enablePitch: bool,
    enableRoll: bool,
    maxSegments: int)

  /** A trunk segment; its length is |step| because the heading has unit length. */
  datatype Segment = Segment(start: Vec3, end: Vec3, radius: real, length: real, depth: nat, exposure: real)

  datatype Leaf = Leaf(position: Vec3, exposure: real, size: real)

  /** What `[` pushes. */
  datatype Frame = Frame(position: Vec3, rotation: Orientation, depth: nat)

  /**
   * The loop state of interpretSentence: the local variables, plus `halted` for
   * the break after the segment cap.
   */
  datatype Turtle = Turtle(
    position: Vec3,
    rotation: Orientation,
    depth: nat,
    moved: bool,
    stack: seq<Frame>,
    segments: seq<Segment>,
    leaves: seq<Leaf>,
    lo: Vec3,
    hi: Vec3,
    halted: bool)

  const Start := Turtle(Origin, [], 0, false, [], [], [], Origin, Origin, false)

  /** Math.max(0.01, width * 0.9^depth) */
  function SegmentRadius(width: real, depth: nat): (r: real)
    ensures r >= 0.01
  {
    Max(0.01, width * Pow(0.9, depth))
  }

  function LeafSize(width: real): real { width * 3.2 }

  /** Multiply one more turn into the rotation. */
  function Rotate(t: Turtle, axis: Axis, degrees: real): Turtle
  {
    t.(rotation := t.rotation + [Turn(axis, degrees)])
  }

  /** F: draw a segment one step along the heading and move to its end. */
  function Forward(cfg: TurtleConfig, heading: Heading, t: Turtle): Turtle
  {
    var next := Add(t.position, Scale(heading(t.rotation), cfg.step));
    var segment := Segment(t.position, next, SegmentRadius(cfg.width, t.depth), Abs(cfg.step), t.depth, 1.0);
    var segments := t.segments + [segment];
    t.(position := next, segments := segments, lo := MinVec(t.lo, next), hi := MaxVec(t.hi, next),
       moved := true, halted := |segments| >= cfg.maxSegments)
  }

  /** [: save position, rotation and depth, and go one level deeper. */
  function OpenBranch(t: Turtle): Turtle
  {
    t.(stack := t.stack + [Frame(t.position, t.rotation, t.depth)], depth := t.depth + 1, moved := false)
  }

  /** ]: a leaf if the turtle moved since the last bracket, then restore the saved frame if any. */
  function CloseBranch(cfg: TurtleConfig, t: Turtle): Turtle
  {
    var leaves := if t.moved then t.leaves + [Leaf(t.position, 1.0, LeafSize(cfg.width))] else t.leaves;
    if |t.stack| > 0 then
      var top := t.stack[|t.stack| - 1];
      t.(leaves := leaves, position := top.position, rotation := top.rotation, depth := top.depth,
         stack := t.stack[..|t.stack| - 1], moved := false)
    else
      t.(leaves := leaves, moved := false)
  }

  /** One character of the sentence; characters without a meaning change nothing. */
  function Step(cfg: TurtleConfig, heading: Heading, t: Turtle, c: char): Turtle
  {
    if c == 'F' then Forward(cfg, heading, t)
    else if c == '+' then Rotate(t, ZAxis, cfg.angle)
    else if c == '-' then Rotate(t, ZAxis, -cfg.angle)
    else if c == '&' && cfg.enablePitch then Rotate(t, XAxis, cfg.angle)
    else if c == '^' && cfg.enablePitch then Rotate(t, XAxis, -cfg.angle)
    else if c == '/' && cfg.enableRoll then Rotate(t, YAxis, cfg.angle)
    else if c == '\\' && cfg.enableRoll then Rotate(t, YAxis, -cfg.angle)
    else if c == '[' then OpenBranch(t)
    else if c == ']' then CloseBranch(cfg, t)
    else t
  }

  /** The turtle after the characters of s, starting from t; a halted turtle ignores the rest. */
  function Run(cfg: TurtleConfig, heading: Heading, t: Turtle, s: string): Turtle
  {
    if |s| == 0 then t
    else
      var u := Run(cfg, heading, t, s[..|s| - 1]);
      if u.halted then u else Step(cfg, heading, u, s[|s| - 1])
  }

  datatype Bounds = Bounds(min: Vec3, max: Vec3, center: Vec3)

  datatype Interpretation = Interpretation(segments: seq<Segment>, leaves: seq<Leaf>, bounds: Bounds)

  /** After the loop: a final leaf if the turtle moved since the last bracket, and the bounds. */
  function Finish(cfg: TurtleConfig, t: Turtle): Interpretation
  {
    var leaves := if t.moved then t.leaves + [Leaf(t.position, 1.0, LeafSize(cfg.width))] else t.leaves;
    var center := Vec3((t.lo.x + t.hi.x) / 2.0, (t.lo.y + t.hi.y) / 2.0, (t.lo.z + t.hi.z) / 2.0);
    Interpretation(t.segments, leaves, Bounds(t.lo, t.hi, center))
  }

  /** interpretSentence as a function of the sentence. */
  function Interpret(cfg: TurtleConfig, heading: Heading, sentence: string): Interpretation
  {
    Finish(cfg, Run(cfg, heading, Start, sentence))
  }

  /** Running s and then u is running s + u. */
  lemma {:induction false} RunConcat(cfg: TurtleConfig, heading: Heading, t: Turtle, s: string, u: string)
    ensures Run(cfg, heading, t, s + u) == Run(cfg, heading, Run(cfg, heading, t, s), u)
    decreases |u|
  {
    if |u| == 0 {
      assert s + u == s;
    } else {
      assert (s + u)[..|s + u| - 1] == s + u[..|u| - 1];
      RunConcat(cfg, heading, t, s, u[..|u| - 1]);
    }
  }

  /** Once the segment cap is reached, the rest of the sentence is ignored. */
  lemma {:induction false} HaltedIsFinal(cfg: TurtleConfig, heading: Heading, t: Turtle, s: string)
    requires t.halted
    ensures Run(cfg, heading, t, s) == t
  {
    if |s| > 0 {
      HaltedIsFinal(cfg, heading, t, s[..|s| - 1]);
    }
  }

  /** One more character: a step unless the turtle has halted. */
  lemma RunSnoc(cfg: TurtleConfig, heading: Heading, sentence: string, i: int)
    requires 0 <= i < |sentence|
    ensures Run(cfg, heading, Start, sentence[..i + 1])
            == if Run(cfg, heading, Start, sentence[..i]).halted then Run(cfg, heading, Start, sentence[..i])
               else Step(cfg, heading, Run(cfg, heading, Start, sentence[..i]), sentence[i])
  {
    assert sentence[..i + 1][..i] == sentence[..i];
  }

  /** A run that halts at the segment cap after a prefix is the whole interpretation's turtle. */
  lemma HaltedRunIsInterpretation(cfg: TurtleConfig, heading: Heading, sentence: string, i: int, t: Turtle)
    requires 0 <= i <= |sentence| && t == Run(cfg, heading, Start, sentence[..i]) && t.halted
    ensures Interpret(cfg, heading, sentence) == Finish(cfg, t)
  {
    HaltedIsFinal(cfg, heading, t, sentence[i..]);
    RunConcat(cfg, heading, Start, sentence[..i], sentence[i..]);
    assert sentence[..i] + sentence[i..] == sentence;
  }

  /** The method's loop, which leaves at the segment cap. */
  method InterpretSentence(sentence: string, cfg: TurtleConfig, heading: Heading) returns (result: Interpretation)
    ensures result == Interpret(cfg, heading, sentence)
  {
    var segments: seq<Segment> := [];
    var leaves: seq<Leaf> := [];
    var position := Origin;
    var rotation: Orientation := [];
    var stack: seq<Frame> := [];
    var lo, hi := Origin, Origin;
    var depth: nat := 0;
    var moved := false;
    var i := 0;
    ghost var t := Start;
    while i < |sentence|
      invariant 0 <= i <= |sentence|
      invariant t == Run(cfg, heading, Start, sentence[..i]) && !t.halted
      invariant position == t.position && rotation == t.rotation && depth == t.depth && moved == t.moved
      invariant stack == t.stack && segments == t.segments && leaves == t.leaves && lo == t.lo && hi == t.hi
    {
      var c := sentence[i];
      RunSnoc(cfg, heading, sentence, i);
      t := Step(cfg, heading, t, c);
      i := i + 1;
      if c == 'F' {
        var direction := heading(rotation);
        var next := Add(position, Scale(direction, cfg.step));
        var radius := SegmentRadius(cfg.width, depth);
        segments := segments + [Segment(position, next, radius, Abs(cfg.step), depth, 1.0)];
        position := next;
        lo := MinVec(lo, position);
        hi := MaxVec(hi, position);
        moved := true;
        if |segments| >= cfg.maxSegments {
          HaltedRunIsInterpretation(cfg, heading, sentence, i, t);
          result := Finish(cfg, Turtle(position, rotation, depth, moved, stack, segments, leaves, lo, hi, true));
          return;
        }
      } else if c == '+' {
        rotation := rotation + [Turn(ZAxis, cfg.angle)];
      } else if c == '-' {
        rotation := rotation + [Turn(ZAxis, -cfg.angle)];
      } else if c == '&' && cfg.enablePitch {
        rotation := rotation + [Turn(XAxis, cfg.angle)];
      } else if c == '^' && cfg.enablePitch {
        rotation := rotation + [Turn(XAxis, -cfg.angle)];
      } else if c == '/' && cfg.enableRoll {
        rotation := rotation + [Turn(YAxis, cfg.angle)];
      } else if c == '\\' && cfg.enableRoll {
        rotation := rotation + [Turn(YAxis, -cfg.angle)];
      } else if c == '[' {
        stack := stack + [Frame(position, rotation, depth)];
        depth := depth + 1;
        moved := false;
      } else if c == ']' {
        if moved {
          leaves := leaves + [Leaf(position, 1.0, cfg.width * 3.2)];
        }
        if |stack| > 0 {
          var previous := stack[|stack| - 1];
          stack := stack[..|stack| - 1];
          position := previous.position;
          rotation := previous.rotation;
          depth := previous.depth;
        }
        moved := false;
      }
    }
    assert sentence[..|sentence|] == sentence;
    assert t == Turtle(position, rotation, depth, moved, stack, segments, leaves, lo, hi, false);
    result := Finish(cfg, Turtle(position, rotation, depth, moved, stack, segments, leaves, lo, hi, false));
  }

  // ---------------------------------------------------------------------------
  // Properties of the turtle
  // ---------------------------------------------------------------------------

  /** The number of F characters in s. */
  function CountF(s: string): nat
  {
    if |s| == 0 then 0 else CountF(s[..|s| - 1]) + (if s[|s| - 1] == 'F' then 1 else 0)
  }

  /**
   * Every F draws one segment until the cap: after a prefix, there are
   * min(#F, max(maxSegments, 1)) segments, and the loop has left exactly when
   * that cap was reached (a cap below one still lets the first segment through).
   */
  lemma {:induction false} SegmentsCounted(cfg: TurtleConfig, heading: Heading, s: string)
    ensures |Run(cfg, heading, Start, s).segments| == MinInt(CountF(s), MaxInt(cfg.maxSegments, 1))
    ensures Run(cfg, heading, Start, s).halted <==> CountF(s) >= MaxInt(cfg.maxSegments, 1)
  {
    if |s| > 0 {
      SegmentsCounted(cfg, heading, s[..|s| - 1]);
    }
  }

  /**
   * Between brackets, `moved` records whether an F has been drawn since the
   * last bracket, and no leaf is emitted.
   */
  lemma {:induction false} MovedTracksForward(cfg: TurtleConfig, heading: Heading, t: Turtle, q: string)
    requires forall i :: 0 <= i < |q| ==> q[i] != '[' && q[i] != ']'
    requires !Run(cfg, heading, t, q).halted
    ensures Run(cfg, heading, t, q).moved <==> t.moved || 'F' in q
    ensures Run(cfg, heading, t, q).leaves == t.leaves
  {
    if |q| > 0 {
      var p := q[..|q| - 1];
      assert q == p + [q[|q| - 1]];
      MovedTracksForward(cfg, heading, t, p);
    }
  }

  /**
   * `]` emits a leaf exactly when an F was drawn since the last bracket, and
   * clears `moved`.
   */
  lemma LeafAtCloseIffDrawn(cfg: TurtleConfig, heading: Heading, t: Turtle, q: string)
    requires forall i :: 0 <= i < |q| ==> q[i] != '[' && q[i] != ']'
    requires !Run(cfg, heading, t, q).halted
    ensures var u := Run(cfg, heading, t, q + "]");
            && |u.leaves| == |t.leaves| + (if t.moved || 'F' in q then 1 else 0)
            && !u.moved
  {
    MovedTracksForward(cfg, heading, t, q);
    RunConcat(cfg, heading, t, q, "]");
  }

  /** v lies in the box [lo, hi], component by component. */
  predicate InBox(v: Vec3, lo: Vec3, hi: Vec3)
  {
    lo.x <= v.x <= hi.x && lo.y <= v.y <= hi.y && lo.z <= v.z <= hi.z
  }

  lemma BoxGrows(v: Vec3, lo: Vec3, hi: Vec3, w: Vec3)
    requires InBox(v, lo, hi)
    ensures InBox(v, MinVec(lo, w), MaxVec(hi, w)) && InBox(w, MinVec(lo, w), MaxVec(hi, w))
  {
  }

  /**
   * What interpretSentence keeps true of its locals: depth counts the saved
   * frames and each frame saved its own depth; the box [lo, hi] holds the origin,
   * the turtle, every saved position, every segment end and every leaf; segments
   * are |step| long and at least 0.01 thick; leaves are width * 3.2 in size; all
   * exposures are still 1; and the loop only leaves right after drawing.
   */
  ghost predicate TurtleInvariant(cfg: TurtleConfig, t: Turtle)
  {
    && t.depth == |t.stack|
    && (forall k :: 0 <= k < |t.stack| ==> t.stack[k].depth == k && InBox(t.stack[k].position, t.lo, t.hi))
    && InBox(Origin, t.lo, t.hi)
    && InBox(t.position, t.lo, t.hi)
    && (forall k :: 0 <= k < |t.segments| ==>
          InBox(t.segments[k].start, t.lo, t.hi) && InBox(t.segments[k].end, t.lo, t.hi)
          && t.segments[k].length == Abs(cfg.step) && t.segments[k].radius >= 0.01
          && t.segments[k].exposure == 1.0)
    && (forall k :: 0 <= k < |t.leaves| ==>
          InBox(t.leaves[k].position, t.lo, t.hi) && t.leaves[k].size == LeafSize(cfg.width)
          && t.leaves[k].exposure == 1.0)
    && (t.halted ==> t.moved)
  }

  lemma ForwardKeepsInvariant(cfg: TurtleConfig, heading: Heading, t: Turtle)
    requires TurtleInvariant(cfg, t)
    ensures TurtleInvariant(cfg, Forward(cfg, heading, t))
  {
    var u := Forward(cfg, heading, t);
    var next := u.position;
    forall v | InBox(v, t.lo, t.hi)
      ensures InBox(v, u.lo, u.hi)
    {
      BoxGrows(v, t.lo, t.hi, next);
    }
    BoxGrows(Origin, t.lo, t.hi, next);
    assert forall k :: 0 <= k < |t.segments| ==> u.segments[k] == t.segments[k];
  }

  lemma CloseBranchKeepsInvariant(cfg: TurtleConfig, t: Turtle)
    requires TurtleInvariant(cfg, t) && !t.halted
    ensures TurtleInvariant(cfg, CloseBranch(cfg, t))
  {
    var u := CloseBranch(cfg, t);
    assert forall k :: 0 <= k < |t.leaves| ==> u.leaves[k] == t.leaves[k];
    if |t.stack| > 0 {
      assert u.stack == t.stack[..|t.stack| - 1];
      assert u.position == t.stack[|t.stack| - 1].position;
    }
  }

  lemma OpenBranchKeepsInvariant(cfg: TurtleConfig, t: Turtle)
    requires TurtleInvariant(cfg, t) && !t.halted
    ensures TurtleInvariant(cfg, OpenBranch(t))
  {
    var u := OpenBranch(t);
    assert forall k :: 0 <= k < |t.stack| ==> u.stack[k] == t.stack[k];
  }

  lemma RotateKeepsInvariant(cfg: TurtleConfig, t: Turtle, axis: Axis, degrees: real)
    requires TurtleInvariant(cfg, t)
    ensures TurtleInvariant(cfg, Rotate(t, axis, degrees))
  {
  }

  lemma StepKeepsInvariant(cfg: TurtleConfig, heading: Heading, t: Turtle, c: char)
    requires TurtleInvariant(cfg, t) && !t.halted
    ensures TurtleInvariant(cfg, Step(cfg, heading, t, c))
  {
    if c == 'F' {
      ForwardKeepsInvariant(cfg, heading, t);
    } else if c == ']' {
      CloseBranchKeepsInvariant(cfg, t);
    } else if c == '[' {
      OpenBranchKeepsInvariant(cfg, t);
    } else if c == '+' || c == '-' {
      RotateKeepsInvariant(cfg, t, ZAxis, if c == '+' then cfg.angle else -cfg.angle);
    } else if (c == '&' || c == '^') && cfg.enablePitch {
      RotateKeepsInvariant(cfg, t, XAxis, if c == '&' then cfg.angle else -cfg.angle);
    } else if (c == '/' || c == '\\') && cfg.enableRoll {
      RotateKeepsInvariant(cfg, t, YAxis, if c == '/' then cfg.angle else -cfg.angle);
    }
  }

  lemma {:induction false} RunKeepsInvariant(cfg: TurtleConfig, heading: Heading, s: string)
    ensures TurtleInvariant(cfg, Run(cfg, heading, Start, s))
  {
    if |s| > 0 {
      RunKeepsInvariant(cfg, heading, s[..|s| - 1]);
      var u := Run(cfg, heading, Start, s[..|s| - 1]);
      if !u.halted {
        StepKeepsInvariant(cfg, heading, u, s[|s| - 1]);
      }
    }
  }

  /**
   * The bounds hold the origin and every segment and leaf of the result, and the
   * centre is their midpoint; segments and leaves have the sizes the
   * configuration gives them.
   */
  lemma InterpretBoundsEnclose(cfg: TurtleConfig, heading: Heading, sentence: string)
    ensures var r := Interpret(cfg, heading, sentence);
            && InBox(Origin, r.bounds.min, r.bounds.max)
            && (forall k :: 0 <= k < |r.segments| ==>
                  InBox(r.segments[k].start, r.bounds.min, r.bounds.max)
                  && InBox(r.segments[k].end, r.bounds.min, r.bounds.max)
                  && r.segments[k].length == Abs(cfg.step) && r.segments[k].radius >= 0.01)
            && (forall k :: 0 <= k < |r.leaves| ==>
                  InBox(r.leaves[k].position, r.bounds.min, r.bounds.max) && r.leaves[k].size == LeafSize(cfg.width))
            && r.bounds.center == Vec3((r.bounds.min.x + r.bounds.max.x) / 2.0,
                                      (r.bounds.min.y + r.bounds.max.y) / 2.0,
                                      (r.bounds.min.z + r.bounds.max.z) / 2.0)
  {
    RunKeepsInvariant(cfg, heading, sentence);
    var t := Run(cfg, heading, Start, sentence);
    var r := Interpret(cfg, heading, sentence);
    assert forall k :: 0 <= k < |t.leaves| ==> r.leaves[k] == t.leaves[k];
  }

  /** A sentence cut short by the segment cap always ends with a leaf at the last tip. */
  lemma CappedSentenceEndsInLeaf(cfg: TurtleConfig, heading: Heading, sentence: string)
    requires CountF(sentence) >= MaxInt(cfg.maxSegments, 1)
    ensures var t := Run(cfg, heading, Start, sentence);
            Interpret(cfg, heading, sentence).leaves == t.leaves + [Leaf(t.position, 1.0, LeafSize(cfg.width))]
  {
    SegmentsCounted(cfg, heading, sentence);
    RunKeepsInvariant(cfg, heading, sentence);
  }

  /** A run over characters other than brackets leaves the saved frames and the depth alone. */
  lemma {:induction false} RunWithoutBrackets(cfg: TurtleConfig, heading: Heading, t: Turtle, q: string)
    requires forall i :: 0 <= i < |q| ==> q[i] != '[' && q[i] != ']'
    ensures Run(cfg, heading, t, q).stack == t.stack && Run(cfg, heading, t, q).depth == t.depth
  {
    if |q| > 0 {
      RunWithoutBrackets(cfg, heading, t, q[..|q| - 1]);
    }
  }

  /**
   * A branch "[q]" with no nested brackets returns the turtle to where it stood,
   * facing the way it faced, at the same depth and with the same saved frames.
   */
  lemma BranchRestoresTurtle(cfg: TurtleConfig, heading: Heading, t: Turtle, q: string)
    requires !t.halted
    requires forall i :: 0 <= i < |q| ==> q[i] != '[' && q[i] != ']'
    requires !Run(cfg, heading, OpenBranch(t), q).halted
    ensures var u := Run(cfg, heading, t, "[" + q + "]");
            u.position == t.position && u.rotation == t.rotation && u.depth == t.depth && u.stack == t.stack
            && !u.moved
  {
    var afterOpen := Run(cfg, heading, t, "[");
    assert afterOpen == OpenBranch(t) by {
      assert "["[..0] == [];
      assert Run(cfg, heading, t, "["[..0]) == t;
    }
    RunConcat(cfg, heading, t, "[", q);
    RunWithoutBrackets(cfg, heading, afterOpen, q);
    RunConcat(cfg, heading, t, "[" + q, "]");
    var inner := Run(cfg, heading, afterOpen, q);
    assert Run(cfg, heading, inner, "]") == CloseBranch(cfg, inner) by {
      assert "]"[..0] == [];
      assert Run(cfg, heading, inner, "]"[..0]) == inner;
    }
    assert inner.stack == t.stack + [Frame(t.position, t.rotation, t.depth)];
  }

  /** `]` with nothing saved keeps position, rotation and depth. */
  lemma CloseWithEmptyStack(cfg: TurtleConfig, t: Turtle)
    requires |t.stack| == 0
    ensures var u := CloseBranch(cfg, t);
            u.position == t.position && u.rotation == t.rotation && u.depth == t.depth && !u.moved
            && |u.leaves| == |t.leaves| + (if t.moved then 1 else 0)
  {
  }

  /**
   * Characters without a meaning change nothing, and so do pitch and roll
   * characters while pitch or roll is disabled.
   */
  lemma IgnoredCharacters(cfg: TurtleConfig, heading: Heading, t: Turtle, c: char)
    requires c !in "F+-&^/\\[]"
             || (!cfg.enablePitch && (c == '&' || c == '^'))
             || (!cfg.enableRoll && (c == '/' || c == '\\'))
    ensures Step(cfg, heading, t, c) == t
  {
  }

  /** A single F with a step of 1 straight up: one segment, one leaf at its tip. */
  lemma SingleStemExample(cfg: TurtleConfig, heading: Heading)
    requires heading([]) == Vec3(0.0, 1.0, 0.0) && cfg.step == 1.0
    ensures var r := Interpret(cfg, heading, "F");
            && |r.segments| == 1 && r.segments[0].start == Origin && r.segments[0].end == Vec3(0.0, 1.0, 0.0)
            && r.segments[0].depth == 0
            && |r.leaves| == 1 && r.leaves[0].position == Vec3(0.0, 1.0, 0.0)
            && r.bounds.center == Vec3(0.0, 0.5, 0.0)
  {
    assert "F"[..0] == [];
    assert Run(cfg, heading, Start, "F"[..0]) == Start;
    assert Run(cfg, heading, Start, "F") == Forward(cfg, heading, Start);
  }
}
