/**
 * The driver of Shapes.java: the kind mapping of generateRandomShape and the
 * loop in main that fills a canvas with ten shapes of distinct signatures,
 * plus the report it prints.
 */
module Driver {
  import opened Wrappers
  import opened Decimal
  import opened ShapeModel
  import opened Ids
  import opened CanvasModel

  /** The number of shapes main puts on the canvas. */
  const Capacity := 10

  /**
   * The random values one call of generateRandomShape consumes:
   * `nextInt(4)` for the kind, then `nextInt(100)` once or twice.
   */
  datatype Draw = Draw(choice: int, first: int, second: int)

  /** What `nextInt(100)` can return, for both dimension draws. */
  predicate InDrawRange(d: Draw) {
    0 <= d.first < 100 && 0 <= d.second < 100
  }

  predicate ValidChoice(choice: int) {
    0 <= choice < 4
  }

  /**
   * generateRandomShape with the draws given and `id` the counter value the
   * construction takes: a choice outside [0, 4) is the IllegalStateException.
   */
  function Generate(d: Draw, id: int): (r: Result<Shape, string>)
    ensures r.Success? <==> ValidChoice(d.choice)
    ensures r.Failure? ==> r.error == "Unexpected value: " + IntToString(d.choice)
    ensures r.Success? ==> Valid(r.value) && GetId(r.value) == id
    ensures r.Success? ==> KindOf(r.value) == [OVAL, CIRCLE, RECTANGLE, SQUARE][d.choice]
  {
    match d.choice
    case 0 => Success(MakeOval(id, d.first + 1, d.second + 1))
    case 1 => Success(MakeCircle(id, d.first + 1))
    case 2 => Success(MakeRectangle(id, d.first + 1, d.second + 1))
    case 3 => Success(MakeSquare(id, d.first + 1))
    case _ => Failure("Unexpected value: " + IntToString(d.choice))
  }

  /**
   * Draws in range are never clamped: the generated shape has exactly the
   * drawn dimensions plus one, the second one unused by circles and squares.
   */
  lemma GenerateInRange(d: Draw, id: int)
    requires InDrawRange(d) && ValidChoice(d.choice)
    ensures var s := Generate(d, id).value;
      FormOf(s) == Form(KindOf(s), d.first + 1, if d.choice % 2 == 1 then d.first + 1 else d.second + 1)
  {
  }

  /** The signature of the shape a draw produces, which does not depend on the id. */
  function DrawSignature(d: Draw): string
    requires ValidChoice(d.choice)
  {
    Signature(Generate(d, 0).value)
  }

  lemma SignatureIgnoresId(d: Draw, id: int)
    requires ValidChoice(d.choice)
    ensures Signature(Generate(d, id).value) == DrawSignature(d)
  {
  }

  /**
   * generateRandomShape: one counter increment exactly when a shape is
   * constructed; an out-of-range choice constructs nothing.
   */
  method GenerateRandomShape(ids: IdCounter, d: Draw) returns (r: Result<Shape, string>)
    requires ids.Valid() && InDrawRange(d)
    modifies ids
    ensures ids.Valid()
    ensures r.Success? ==> ids.counter == NextId(old(ids.counter)) && r == Generate(d, ids.counter)
    ensures r.Failure? ==> ids.counter == old(ids.counter) && r == Generate(d, ids.counter)
  {
    match d.choice
    case 0 =>
      var s := ids.NewOval(d.first + 1, d.second + 1);
      r := Success(s);
    case 1 =>
      var s := ids.NewCircle(d.first + 1);
      r := Success(s);
    case 2 =>
      var s := ids.NewRectangle(d.first + 1, d.second + 1);
      r := Success(s);
    case 3 =>
      var s := ids.NewSquare(d.first + 1);
      r := Success(s);
    case _ =>
      r := Failure("Unexpected value: " + IntToString(d.choice));
  }

  predicate DistinctSignatures(shapes: seq<Shape>) {
    forall i, j :: 0 <= i < j < |shapes| ==> Signature(shapes[i]) != Signature(shapes[j])
  }

  function SignatureSet(shapes: seq<Shape>): set<string> {
    set i | 0 <= i < |shapes| :: Signature(shapes[i])
  }

  /** The signatures of the first `n` draws. */
  function DrawSignatures(draws: seq<Draw>, n: nat): set<string>
    requires n <= |draws|
    requires forall k :: 0 <= k < n ==> ValidChoice(draws[k].choice)
  {
    set k | 0 <= k < n :: DrawSignature(draws[k])
  }

  /** Appending a shape whose signature is new keeps the signatures distinct and adds exactly it. */
  lemma AdmitFresh(shapes: seq<Shape>, s: Shape)
    requires DistinctSignatures(shapes)
    requires Signature(s) !in SignatureSet(shapes)
    ensures DistinctSignatures(shapes + [s])
    ensures SignatureSet(shapes + [s]) == SignatureSet(shapes) + {Signature(s)}
  {
    var t := shapes + [s];
    forall i, j | 0 <= i < j < |t| ensures Signature(t[i]) != Signature(t[j]) {
      if j == |shapes| {
        assert Signature(t[i]) in SignatureSet(shapes);
      }
    }
    forall x | x in SignatureSet(t) ensures x in SignatureSet(shapes) + {Signature(s)} {
      var i :| 0 <= i < |t| && x == Signature(t[i]);
      if i < |shapes| {
        assert t[i] == shapes[i];
      }
    }
    forall x | x in SignatureSet(shapes) ensures x in SignatureSet(t) {
      var i :| 0 <= i < |shapes| && x == Signature(shapes[i]);
      assert t[i] == shapes[i];
    }
    assert Signature(s) == Signature(t[|shapes|]);
  }

  lemma {:induction false} DrawSignaturesStep(draws: seq<Draw>, n: nat)
    requires n < |draws|
    requires forall k :: 0 <= k <= n ==> ValidChoice(draws[k].choice)
    ensures DrawSignatures(draws, n + 1) == DrawSignatures(draws, n) + {DrawSignature(draws[n])}
  {
    assert DrawSignature(draws[n]) in DrawSignatures(draws, n + 1);
  }

  /**
   * Canvas entry `j` is the shape that draw `origin[j]` produced, with the id
   * that construction took; entries keep the order of their draws.
   */
  predicate Traced(draws: seq<Draw>, start: int, shapes: seq<Shape>, origin: seq<nat>, used: nat) {
    && used <= |draws| && |origin| == |shapes|
    && (forall i, j :: 0 <= i < j < |origin| ==> origin[i] < origin[j])
    && (forall j :: 0 <= j < |origin| ==>
          && origin[j] < used && ValidChoice(draws[origin[j]].choice)
          && shapes[j] == Generate(draws[origin[j]], IdAt(start, origin[j] + 1)).value)
  }

  lemma TracedSkip(draws: seq<Draw>, start: int, shapes: seq<Shape>, origin: seq<nat>, used: nat)
    requires Traced(draws, start, shapes, origin, used) && used < |draws|
    ensures Traced(draws, start, shapes, origin, used + 1)
  {
  }

  lemma TracedAdmit(draws: seq<Draw>, start: int, shapes: seq<Shape>, origin: seq<nat>, used: nat, s: Shape)
    requires Traced(draws, start, shapes, origin, used) && used < |draws|
    requires ValidChoice(draws[used].choice) && s == Generate(draws[used], IdAt(start, used + 1)).value
    ensures Traced(draws, start, shapes + [s], origin + [used], used + 1)
  {
    var t, o := shapes + [s], origin + [used];
    forall j | 0 <= j < |o|
      ensures o[j] < used + 1 && ValidChoice(draws[o[j]].choice)
      ensures t[j] == Generate(draws[o[j]], IdAt(start, o[j] + 1)).value
    {
      if j < |origin| {
        assert o[j] == origin[j] && t[j] == shapes[j];
      }
    }
  }

  /**
   * The body of main's loop after generation: a shape whose signature
   * `type + " " + dimensions` is new is appended and its signature recorded;
   * a duplicate leaves canvas and seen set as they were.
   */
  method AdmitIfNew(canvas: Canvas, seen: set<string>, shape: Shape) returns (seen': set<string>, added: bool)
    modifies canvas
    ensures added <==> Signature(shape) !in seen
    ensures canvas.shapes == if added then old(canvas.shapes) + [shape] else old(canvas.shapes)
    ensures !added ==> seen' == seen
    ensures seen' == seen + {Signature(shape)}
  {
    var shapeInfo := GetType(shape) + " " + GetDimensions(shape);
    if shapeInfo !in seen {
      canvas.AddShape(shape);
      seen' := seen + {shapeInfo};
      added := true;
    } else {
      seen' := seen;
      added := false;
    }
  }

  /** How the fill loop ended. */
  datatype Outcome = Filled | Exhausted | Failed(message: string)

  /** The loop's state: canvas contents, seen set, kept-draw indices, draws consumed, and how it ended. */
  datatype FillState = FillState(shapes: seq<Shape>, seen: set<string>, origin: seq<nat>, used: nat, outcome: Outcome)

  /**
   * Reference definition of main's loop, continued from a given state over
   * a finite supply of draws: stop with ten shapes, stop when the draws run
   * out, stop at an invalid choice; otherwise generate a shape with the next
   * id and keep it only if its signature is new.
   */
  function Fill(draws: seq<Draw>, start: int, shapes: seq<Shape>, seen: set<string>, origin: seq<nat>, used: nat): FillState
    requires used <= |draws|
    decreases |draws| - used
  {
    if |shapes| >= Capacity then FillState(shapes, seen, origin, used, Filled)
    else if used == |draws| then FillState(shapes, seen, origin, used, Exhausted)
    else
      match Generate(draws[used], IdAt(start, used + 1))
      case Failure(e) => FillState(shapes, seen, origin, used, Failed(e))
      case Success(s) =>
        if Signature(s) !in seen then Fill(draws, start, shapes + [s], seen + {Signature(s)}, origin + [used], used + 1)
        else Fill(draws, start, shapes, seen, origin, used + 1)
  }

  /**
   * What main's loop keeps true after consuming `used` draws: at most ten
   * shapes, pairwise distinct signatures, the seen set is exactly the set of
   * canvas signatures and also the set of signatures of every draw so far
   * (so each discarded shape duplicated one already kept), and each entry is
   * traced to its draw.
   */
  predicate FillInvariant(draws: seq<Draw>, start: int, shapes: seq<Shape>, seen: set<string>, origin: seq<nat>, used: nat) {
    && used <= |draws|
    && (forall k :: 0 <= k < used ==> ValidChoice(draws[k].choice))
    && |shapes| <= Capacity
    && DistinctSignatures(shapes)
    && seen == SignatureSet(shapes)
    && seen == DrawSignatures(draws, used)
    && Traced(draws, start, shapes, origin, used)
  }

  /** One iteration of main's loop, whether the new shape is kept or discarded, keeps the invariant. */
  lemma FillStep(draws: seq<Draw>, start: int, shapes: seq<Shape>, seen: set<string>, origin: seq<nat>, used: nat, shape: Shape)
    requires FillInvariant(draws, start, shapes, seen, origin, used)
    requires used < |draws| && |shapes| < Capacity && ValidChoice(draws[used].choice)
    requires shape == Generate(draws[used], IdAt(start, used + 1)).value
    ensures Signature(shape) !in seen ==>
      FillInvariant(draws, start, shapes + [shape], seen + {Signature(shape)}, origin + [used], used + 1)
    ensures Signature(shape) in seen ==> FillInvariant(draws, start, shapes, seen, origin, used + 1)
  {
    SignatureIgnoresId(draws[used], IdAt(start, used + 1));
    DrawSignaturesStep(draws, used);
    if Signature(shape) !in seen {
      AdmitFresh(shapes, shape);
      TracedAdmit(draws, start, shapes, origin, used, shape);
    } else {
      TracedSkip(draws, start, shapes, origin, used);
    }
  }

  /** From any state meeting the invariant, the loop ends in a state meeting it. */
  lemma {:induction false} FillKeepsInvariant(draws: seq<Draw>, start: int, shapes: seq<Shape>, seen: set<string>, origin: seq<nat>, used: nat)
    requires FillInvariant(draws, start, shapes, seen, origin, used)
    decreases |draws| - used
    ensures var r := Fill(draws, start, shapes, seen, origin, used);
      FillInvariant(draws, start, r.shapes, r.seen, r.origin, r.used)
  {
    if |shapes| < Capacity && used < |draws| && ValidChoice(draws[used].choice) {
      var shape := Generate(draws[used], IdAt(start, used + 1)).value;
      FillStep(draws, start, shapes, seen, origin, used, shape);
      if Signature(shape) !in seen {
        assert Fill(draws, start, shapes, seen, origin, used)
            == Fill(draws, start, shapes + [shape], seen + {Signature(shape)}, origin + [used], used + 1);
        FillKeepsInvariant(draws, start, shapes + [shape], seen + {Signature(shape)}, origin + [used], used + 1);
      } else {
        assert Fill(draws, start, shapes, seen, origin, used) == Fill(draws, start, shapes, seen, origin, used + 1);
        FillKeepsInvariant(draws, start, shapes, seen, origin, used + 1);
      }
    } else {
      assert Fill(draws, start, shapes, seen, origin, used).shapes == shapes;
    }
  }

  /**
   * How the loop ends: with ten shapes exactly when it reports Filled,
   * having used every draw when it reports Exhausted, and at the offending
   * draw with Java's message when it reports Failed.
   */
  lemma {:induction false} FillOutcome(draws: seq<Draw>, start: int, shapes: seq<Shape>, seen: set<string>, origin: seq<nat>, used: nat)
    requires used <= |draws| && |shapes| <= Capacity
    decreases |draws| - used
    ensures var r := Fill(draws, start, shapes, seen, origin, used);
      && used <= r.used <= |draws|
      && (r.outcome == Filled <==> |r.shapes| == Capacity)
      && (r.outcome == Exhausted ==> r.used == |draws|)
      && (r.outcome.Failed? ==> r.used < |draws| && !ValidChoice(draws[r.used].choice))
      && (r.outcome.Failed? ==> r.outcome.message == "Unexpected value: " + IntToString(draws[r.used].choice))
  {
    if |shapes| < Capacity && used < |draws| && ValidChoice(draws[used].choice) {
      var shape := Generate(draws[used], IdAt(start, used + 1)).value;
      if Signature(shape) !in seen {
        assert Fill(draws, start, shapes, seen, origin, used)
            == Fill(draws, start, shapes + [shape], seen + {Signature(shape)}, origin + [used], used + 1);
        FillOutcome(draws, start, shapes + [shape], seen + {Signature(shape)}, origin + [used], used + 1);
      } else {
        assert Fill(draws, start, shapes, seen, origin, used) == Fill(draws, start, shapes, seen, origin, used + 1);
        FillOutcome(draws, start, shapes, seen, origin, used + 1);
      }
    } else if |shapes| < Capacity && used < |draws| {
      var e := "Unexpected value: " + IntToString(draws[used].choice);
      assert Fill(draws, start, shapes, seen, origin, used) == FillState(shapes, seen, origin, used, Failed(e));
    }
  }

  /** main's loop, run from an empty canvas, keeps the invariant and ends as FillOutcome says. */
  lemma FillCorrect(draws: seq<Draw>, start: int)
    ensures var r := Fill(draws, start, [], {}, [], 0);
      && FillInvariant(draws, start, r.shapes, r.seen, r.origin, r.used)
      && (r.outcome == Filled <==> |r.shapes| == Capacity)
      && (r.outcome == Exhausted ==> r.used == |draws|)
      && (r.outcome.Failed? ==> r.used < |draws| && !ValidChoice(draws[r.used].choice))
      && (r.outcome.Failed? ==> r.outcome.message == "Unexpected value: " + IntToString(draws[r.used].choice))
  {
    assert DrawSignatures(draws, 0) == {};
    FillKeepsInvariant(draws, start, [], {}, [], 0);
    FillOutcome(draws, start, [], {}, [], 0);
  }

  /**
   * The loop of main over a finite supply of draws, with the canvas and the
   * seen set updated in place; it ends in the state Fill describes, and
   * the counter has advanced once per shape constructed.
   */
  method FillCanvas(ids: IdCounter, draws: seq<Draw>)
    returns (canvas: Canvas, seen: set<string>, used: nat, outcome: Outcome, ghost origin: seq<nat>)
    requires ids.Valid()
    requires forall k :: 0 <= k < |draws| ==> InDrawRange(draws[k])
    modifies ids
    ensures fresh(canvas) && ids.Valid() && ids.counter == IdAt(old(ids.counter), used)
    ensures FillState(canvas.shapes, seen, origin, used, outcome) == Fill(draws, old(ids.counter), [], {}, [], 0)
  {
    ghost var start := ids.counter;
    canvas := new Canvas();
    seen := {};
    used := 0;
    outcome := Exhausted;
    origin := [];
    while |canvas.GetShapes()| < Capacity && used < |draws|
      invariant ids.Valid() && ids.counter == IdAt(start, used) && used <= |draws|
      invariant |canvas.shapes| <= Capacity && outcome == Exhausted
      invariant Fill(draws, start, canvas.shapes, seen, origin, used) == Fill(draws, start, [], {}, [], 0)
      decreases |draws| - used
    {
      var r := GenerateRandomShape(ids, draws[used]);
      if r.Failure? {
        outcome := Failed(r.error);
        break;
      }
      var shape := r.value;
      var added;
      seen, added := AdmitIfNew(canvas, seen, shape);
      if added {
        origin := origin + [used];
      }
      used := used + 1;
    }
    if outcome == Exhausted && |canvas.shapes| == Capacity {
      outcome := Filled;
    }
  }

  /** No two shapes on the canvas agree on kind and dimensions. */
  lemma DistinctForms(draws: seq<Draw>, start: int, shapes: seq<Shape>, origin: seq<nat>, used: nat)
    requires Traced(draws, start, shapes, origin, used)
    requires DistinctSignatures(shapes)
    ensures forall i, j :: 0 <= i < j < |shapes| ==> FormOf(shapes[i]) != FormOf(shapes[j])
  {
    forall i, j | 0 <= i < j < |shapes| ensures FormOf(shapes[i]) != FormOf(shapes[j]) {
      assert Valid(shapes[i]) && Valid(shapes[j]);
      SignatureIdentifiesForm(shapes[i], shapes[j]);
    }
  }

  /** The id of canvas entry `j` is the counter value after its draw's construction. */
  lemma TracedId(draws: seq<Draw>, start: int, shapes: seq<Shape>, origin: seq<nat>, used: nat, j: nat)
    requires Traced(draws, start, shapes, origin, used) && j < |shapes|
    ensures GetId(shapes[j]) == IdAt(start, origin[j] + 1)
  {
  }

  /** The ids on the canvas never repeat within 2^32 constructions. */
  lemma CanvasIdsUnique(draws: seq<Draw>, start: int, shapes: seq<Shape>, origin: seq<nat>, used: nat)
    requires IsInt32(start) && used < Int32Span
    requires Traced(draws, start, shapes, origin, used)
    ensures forall i, j :: 0 <= i < j < |shapes| ==> GetId(shapes[i]) != GetId(shapes[j])
  {
    forall i, j | 0 <= i < j < |shapes| ensures GetId(shapes[i]) != GetId(shapes[j]) {
      TracedId(draws, start, shapes, origin, used, i);
      TracedId(draws, start, shapes, origin, used, j);
      IdsNeverRepeat(start, origin[i] + 1, origin[j] + 1);
    }
  }

  /** Without counter overflow, the ids on the canvas strictly increase in canvas order. */
  lemma CanvasIdsIncrease(draws: seq<Draw>, start: int, shapes: seq<Shape>, origin: seq<nat>, used: nat)
    requires IsInt32(start) && start + used <= Int32Max
    requires Traced(draws, start, shapes, origin, used)
    ensures forall i, j :: 0 <= i < j < |shapes| ==> GetId(shapes[i]) < GetId(shapes[j])
  {
    forall i, j | 0 <= i < j < |shapes| ensures GetId(shapes[i]) < GetId(shapes[j]) {
      TracedId(draws, start, shapes, origin, used, i);
      TracedId(draws, start, shapes, origin, used, j);
      IdsIncrease(start, origin[i] + 1, origin[j] + 1);
    }
  }

  /** The header main passes to println before the shape lines; its own line break and println's give a blank line. */
  const Header := "Canvas has the following random shapes:\n"

  /** The shape lines main prints after the header, one per shape in canvas order. */
  function ShapeLines(shapes: seq<Shape>): (lines: seq<string>)
    ensures |lines| == |shapes|
    ensures forall k :: 0 <= k < |shapes| ==> lines[k] == ReportLine(shapes[k])
  {
    seq(|shapes|, k requires 0 <= k < |shapes| => ReportLine(shapes[k]))
  }

  /** On a canvas of constructed shapes with distinct signatures, every printed shape line is different. */
  lemma ShapeLinesDistinct(shapes: seq<Shape>)
    requires forall k :: 0 <= k < |shapes| ==> Valid(shapes[k])
    requires DistinctSignatures(shapes)
    ensures forall i, j :: 0 <= i < j < |shapes| ==> ShapeLines(shapes)[i] != ShapeLines(shapes)[j]
  {
    var lines := ShapeLines(shapes);
    forall i, j | 0 <= i < j < |shapes| ensures lines[i] != lines[j] {
      ReportLineInjective(shapes[i], shapes[j]);
      SignatureIdentifiesForm(shapes[i], shapes[j]);
    }
  }
}
