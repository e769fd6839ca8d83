/**
 * The shape values of Shapes.java: the class chain CShape / COval / CCircle /
 * CRectangle / CSquare as one closed datatype, the clamping constructors,
 * the type labels, the dimension strings and the "type dimensions"
 * signature used to de-duplicate shapes.
 */
module ShapeModel {
  import opened Wrappers
  import opened Decimal

  const MinDimension := 1
  const MaxDimension := 100

  /** `Math.max(1, Math.min(v, 100))`: every stored dimension lands in [1, 100]. */
  function Clamp(v: int): (r: int)
    ensures MinDimension <= r <= MaxDimension
    ensures MinDimension <= v <= MaxDimension ==> r == v
    ensures v < MinDimension ==> r == MinDimension
    ensures v > MaxDimension ==> r == MaxDimension
  {
    var low := if v < MaxDimension then v else MaxDimension;
    if MinDimension > low then MinDimension else low
  }

  /**
   * One shape with its id. A circle keeps the two radii it inherits from
   * COval and a square the length and width it inherits from CRectangle.
   */
  datatype Shape =
    | Oval(id: int, horizontalRadius: int, verticalRadius: int)
    | Circle(id: int, horizontalRadius: int, verticalRadius: int)
    | Rectangle(id: int, length: int, width: int)
    | Square(id: int, length: int, width: int)

  datatype Kind = OVAL | CIRCLE | RECTANGLE | SQUARE

  predicate InRange(v: int) {
    MinDimension <= v <= MaxDimension
  }

  /** What construction guarantees: dimensions in range, equal radii, equal sides. */
  predicate Valid(s: Shape) {
    match s
    case Oval(_, h, v) => InRange(h) && InRange(v)
    case Circle(_, h, v) => InRange(h) && h == v
    case Rectangle(_, l, w) => InRange(l) && InRange(w)
    case Square(_, l, w) => InRange(l) && l == w
  }

  function KindOf(s: Shape): Kind {
    match s
    case Oval(_, _, _) => OVAL
    case Circle(_, _, _) => CIRCLE
    case Rectangle(_, _, _) => RECTANGLE
    case Square(_, _, _) => SQUARE
  }

  /** The label each class's getType returns. */
  function TypeName(k: Kind): string {
    match k
    case OVAL => "OVAL"
    case CIRCLE => "CIRCLE"
    case RECTANGLE => "RECTANGLE"
    case SQUARE => "SQUARE"
  }

  function GetType(s: Shape): string {
    TypeName(KindOf(s))
  }

  /** Reads a type label back: the one kind whose label it is, if any. */
  function KindNamed(t: string): (r: Option<Kind>)
    ensures forall k :: r == Some(k) <==> TypeName(k) == t
  {
    if t == "OVAL" then Some(OVAL)
    else if t == "CIRCLE" then Some(CIRCLE)
    else if t == "RECTANGLE" then Some(RECTANGLE)
    else if t == "SQUARE" then Some(SQUARE)
    else None
  }

  /**
   * getDimensions: "AxB" for ovals and rectangles, the bare radius for a
   * circle (CCircle overrides it), and "AxB" again for a square, which
   * inherits CRectangle's formatter.
   */
  function GetDimensions(s: Shape): string {
    match s
    case Oval(_, h, v) => IntToString(h) + "x" + IntToString(v)
    case Circle(_, h, _) => IntToString(h)
    case Rectangle(_, l, w) => IntToString(l) + "x" + IntToString(w)
    case Square(_, l, w) => IntToString(l) + "x" + IntToString(w)
  }

  function GetId(s: Shape): int {
    s.id
  }

  /** The de-duplication key: type, one space, dimensions. */
  function Signature(s: Shape): string {
    GetType(s) + " " + GetDimensions(s)
  }

  /** The constructors: the id is given, every dimension is clamped. */
  function MakeOval(id: int, horizontalRadius: int, verticalRadius: int): (s: Shape)
    ensures s.Oval? && GetId(s) == id && Valid(s) && GetType(s) == "OVAL"
    ensures s.horizontalRadius == Clamp(horizontalRadius) && s.verticalRadius == Clamp(verticalRadius)
  {
    Oval(id, Clamp(horizontalRadius), Clamp(verticalRadius))
  }

  function MakeCircle(id: int, radius: int): (s: Shape)
    ensures s.Circle? && GetId(s) == id && Valid(s) && GetType(s) == "CIRCLE"
    ensures s.horizontalRadius == s.verticalRadius == Clamp(radius)
  {
    var o := MakeOval(id, radius, radius);
    Circle(o.id, o.horizontalRadius, o.verticalRadius)
  }

  function MakeRectangle(id: int, length: int, width: int): (s: Shape)
    ensures s.Rectangle? && GetId(s) == id && Valid(s) && GetType(s) == "RECTANGLE"
    ensures s.length == Clamp(length) && s.width == Clamp(width)
  {
    Rectangle(id, Clamp(length), Clamp(width))
  }

  function MakeSquare(id: int, side: int): (s: Shape)
    ensures s.Square? && GetId(s) == id && Valid(s) && GetType(s) == "SQUARE"
    ensures s.length == s.width == Clamp(side)
  {
    var r := MakeRectangle(id, side, side);
    Square(r.id, r.length, r.width)
  }

  /** An oval formats as "AxB" from its two clamped radii, with no spaces. */
  lemma OvalDimensions(id: int, horizontalRadius: int, verticalRadius: int)
    ensures GetDimensions(MakeOval(id, horizontalRadius, verticalRadius))
         == IntToString(Clamp(horizontalRadius)) + "x" + IntToString(Clamp(verticalRadius))
  {
  }

  /** A circle formats as its clamped radius alone. */
  lemma CircleDimensions(id: int, radius: int)
    ensures GetDimensions(MakeCircle(id, radius)) == IntToString(Clamp(radius))
  {
  }

  /** A rectangle formats as "AxB" from its clamped length and width. */
  lemma RectangleDimensions(id: int, length: int, width: int)
    ensures GetDimensions(MakeRectangle(id, length, width)) == IntToString(Clamp(length)) + "x" + IntToString(Clamp(width))
  {
  }

  /** A square has no formatter of its own and so formats as "NxN" through the rectangle's. */
  lemma SquareDimensions(id: int, side: int)
    ensures GetDimensions(MakeSquare(id, side)) == IntToString(Clamp(side)) + "x" + IntToString(Clamp(side))
  {
  }

  /** Only a circle's dimension string lacks the 'x' separator. */
  lemma SeparatorUnlessCircle(s: Shape)
    ensures 'x' in GetDimensions(s) <==> !s.Circle?
  {
    match s
    case Oval(_, h, v) =>
      assert GetDimensions(s)[|IntToString(h)|] == 'x';
    case Circle(_, h, _) =>
      IntToStringHasNoSeparator(h);
    case Rectangle(_, l, w) =>
      assert GetDimensions(s)[|IntToString(l)|] == 'x';
    case Square(_, l, w) =>
      assert GetDimensions(s)[|IntToString(l)|] == 'x';
  }

  /** The four type labels are pairwise different. */
  lemma TypeNamesDistinct(a: Kind, b: Kind)
    ensures TypeName(a) == TypeName(b) <==> a == b
  {
    assert KindNamed(TypeName(a)) == Some(a);
  }

  /** A circle and a square built from the same number never format alike. */
  lemma SquareIsNotCollapsed(id: int, n: int)
    ensures GetDimensions(MakeSquare(id, n)) != GetDimensions(MakeCircle(id, n))
  {
    var c := Clamp(n);
    assert |GetDimensions(MakeSquare(id, n))| == 2 * |IntToString(c)| + 1;
  }

  /** The worked examples: COval(150, 0), CCircle(-5), CRectangle(200, 50), CSquare(0). */
  lemma ConstructionExamples(id: int)
    ensures GetDimensions(MakeOval(id, 150, 0)) == "100x1"
    ensures GetDimensions(MakeCircle(id, -5)) == "1"
    ensures GetDimensions(MakeRectangle(id, 200, 50)) == "100x50"
    ensures GetDimensions(MakeSquare(id, 0)) == "1x1"
    ensures Signature(MakeSquare(id, 0)) == "SQUARE 1x1"
  {
    assert NatToString(1) == "1";
    assert NatToString(5) == "5";
    assert NatToString(0) == "0";
    assert NatToString(10) == "10";
    assert NatToString(100) == "100";
    assert NatToString(50) == "50";
  }

  /** A shape up to its id: its kind and its two stored dimensions. */
  datatype Form = Form(kind: Kind, first: int, second: int)

  function FormOf(s: Shape): Form {
    match s
    case Oval(_, h, v) => Form(OVAL, h, v)
    case Circle(_, h, v) => Form(CIRCLE, h, v)
    case Rectangle(_, l, w) => Form(RECTANGLE, l, w)
    case Square(_, l, w) => Form(SQUARE, l, w)
  }

  /** Reads a dimension string of the given kind back into two dimensions. */
  function ParseDimensions(k: Kind, d: string): Option<(int, int)> {
    if k == CIRCLE then
      match ParseInt(d)
      case None => None
      case Some(n) => Some((n, n))
    else
      match SplitOn(d, 'x')
      case None => None
      case Some((a, b)) =>
        match (ParseInt(a), ParseInt(b))
        case (Some(m), Some(n)) => Some((m, n))
        case _ => None
  }

  /** Reads a signature back into the form it was rendered from. */
  function ParseSignature(sig: string): Option<Form> {
    match SplitOn(sig, ' ')
    case None => None
    case Some((t, d)) =>
      match KindNamed(t)
      case None => None
      case Some(k) =>
        match ParseDimensions(k, d)
        case None => None
        case Some((a, b)) => Some(Form(k, a, b))
  }

  lemma ParseDimensionsInverts(s: Shape)
    requires s.Circle? ==> s.horizontalRadius == s.verticalRadius
    ensures ParseDimensions(KindOf(s), GetDimensions(s)) == Some((FormOf(s).first, FormOf(s).second))
  {
    match s
    case Oval(_, h, v) =>
      IntToStringHasNoSeparator(h);
      SplitOnJoin(IntToString(h), 'x', IntToString(v));
      ParseIntInverts(h);
      ParseIntInverts(v);
    case Circle(_, h, v) =>
      ParseIntInverts(h);
    case Rectangle(_, l, w) =>
      IntToStringHasNoSeparator(l);
      SplitOnJoin(IntToString(l), 'x', IntToString(w));
      ParseIntInverts(l);
      ParseIntInverts(w);
    case Square(_, l, w) =>
      IntToStringHasNoSeparator(l);
      SplitOnJoin(IntToString(l), 'x', IntToString(w));
      ParseIntInverts(l);
      ParseIntInverts(w);
  }

  /** The signature determines the kind and both dimensions. */
  lemma ParseSignatureInverts(s: Shape)
    requires s.Circle? ==> s.horizontalRadius == s.verticalRadius
    ensures ParseSignature(Signature(s)) == Some(FormOf(s))
  {
    var t, d := GetType(s), GetDimensions(s);
    assert ' ' !in t;
    SplitOnJoin(t, ' ', d);
    assert KindNamed(t) == Some(KindOf(s));
    ParseDimensionsInverts(s);
  }

  /** Two constructed shapes share a signature exactly when they agree on kind and dimensions. */
  lemma SignatureIdentifiesForm(a: Shape, b: Shape)
    requires Valid(a) && Valid(b)
    ensures Signature(a) == Signature(b) <==> FormOf(a) == FormOf(b)
  {
    if Signature(a) == Signature(b) {
      ParseSignatureInverts(a);
      ParseSignatureInverts(b);
    }
  }

  /** The report line main prints for a shape. */
  function ReportLine(s: Shape): string {
    "Shape " + IntToString(GetId(s)) + ": " + Signature(s)
  }

  /** Reads a report line back into an id and a form. */
  function ParseReportLine(line: string): Option<(int, Form)> {
    if |line| < 6 || line[..6] != "Shape " then None
    else
      match SplitOn(line[6..], ':')
      case None => None
      case Some((idText, rest)) =>
        if |rest| == 0 || rest[0] != ' ' then None
        else
          match (ParseInt(idText), ParseSignature(rest[1..]))
          case (Some(id), Some(f)) => Some((id, f))
          case _ => None
  }

  /** A report line carries the shape's id, kind and dimensions. */
  lemma ReportLineRoundTrip(s: Shape)
    requires s.Circle? ==> s.horizontalRadius == s.verticalRadius
    ensures ParseReportLine(ReportLine(s)) == Some((GetId(s), FormOf(s)))
  {
    var line, idText, sig := ReportLine(s), IntToString(GetId(s)), Signature(s);
    assert line[..6] == "Shape ";
    assert line[6..] == idText + [':'] + (" " + sig);
    IntToStringHasNoSeparator(GetId(s));
    SplitOnJoin(idText, ':', " " + sig);
    ParseIntInverts(GetId(s));
    assert (" " + sig)[1..] == sig;
    ParseSignatureInverts(s);
  }

  /** Equal report lines come from shapes with the same id, kind and dimensions. */
  lemma ReportLineInjective(a: Shape, b: Shape)
    requires a.Circle? ==> a.horizontalRadius == a.verticalRadius
    requires b.Circle? ==> b.horizontalRadius == b.verticalRadius
    ensures ReportLine(a) == ReportLine(b) ==> GetId(a) == GetId(b) && FormOf(a) == FormOf(b)
  {
    if ReportLine(a) == ReportLine(b) {
      ReportLineRoundTrip(a);
      ReportLineRoundTrip(b);
    }
  }
}
