# Shapes: a verified model

`Shapes.java` builds a canvas of ten random shapes (ovals, circles,
rectangles, squares). Every shape clamps its dimensions into [1, 100] and
takes a fresh id from a process-wide counter. `main` keeps a shape only if
its signature `type + " " + dimensions` has not been seen before, then prints
one line per shape.

This project models that program in Dafny:

- `wrappers.dfy` (`Wrappers`): `Option` and `Result`.
- `decimal.dfy` (`Decimal`): Java's decimal rendering of an `int`
  (`IntToString`, `NatToString`). It also holds an inverse parser (`ParseInt`)
  and a first-occurrence splitter (`SplitOn`), which the round-trip lemmas use.
- `shape.dfy` (`ShapeModel`): the class chain `CShape`/`COval`/`CCircle`/
  `CRectangle`/`CSquare` as one closed datatype `Shape`.
  - A circle keeps the two radii it inherits from `COval`.
  - A square keeps the length and width it inherits from `CRectangle`.
  - The constructors are `MakeOval`, `MakeCircle`, `MakeRectangle` and
    `MakeSquare`; they clamp with `Clamp`.
  - `GetType`, `GetDimensions`, `GetId` and `Signature` are plain functions.
  - `ParseSignature` and `ParseReportLine` read rendered text back; they
    serve as partners for the injectivity proofs.
- `ids.dfy` (`Ids`): the static `counter` as the field of class `IdCounter`.
  `++counter` is a 32-bit Java `int` increment and wraps (`Wrap32`, `NextId`).
  `IdAt(start, n)` is the counter after `n` constructions. The methods
  `NewOval`, `NewCircle`, `NewRectangle` and `NewSquare` are the Java
  constructors: one increment, then the clamped value.
- `canvas.dfy` (`CanvasModel`): `CCanvas` as class `Canvas`. Its `shapes`
  field is a sequence that `AddShape` reassigns. `GetShapes` reads that field.
- `driver.dfy` (`Driver`):
  - `Generate` and `GenerateRandomShape` model `generateRandomShape` with the
    random values passed in as a `Draw`.
  - `Fill` is a reference definition of the loop in `main`.
  - `FillCanvas` is that loop as a method. It updates a `Canvas` in place and
    reassigns a seen set value after each shape; its end state is proved equal
    to `Fill`.
  - The lemmas about `Fill` prove the loop's promises.
  - `ShapeLines` gives the printed lines.

`CCircle` overrides `getDimensions` to print its radius alone. `CSquare` does
not override it, so a square prints
`NxN` (`CSquare(0)` prints `1x1`), while a circle prints one number. The
model keeps this (`SquareDimensions`, `SeparatorUnlessCircle`,
`SquareIsNotCollapsed`).

## Model

| member | source | states |
|---|---|---|
| `ShapeModel.Clamp` | Shapes.java:56-57 | The result is always in [1, 100]. Inputs already in range are unchanged. Inputs below 1 give 1 and inputs above 100 give 100. |
| `ShapeModel.GetType` | Shapes.java:65-194 | The label of each kind (`getType` at lines 65-68, 117-120, 157-160 and 191-194) ("OVAL", "CIRCLE", "RECTANGLE", "SQUARE"). Its contract is stated by `MakeOval`, `MakeCircle`, `MakeRectangle` and `MakeSquare` (the label of each constructed shape) and by `TypeNamesDistinct` (the label determines the kind). |
| `ShapeModel.GetDimensions` | Shapes.java:75-170 | The dimension string (`getDimensions` at lines 75-78, 127-130 and 167-170). Its behaviour is stated by `OvalDimensions`, `CircleDimensions`, `RectangleDimensions`, `SquareDimensions` and `SeparatorUnlessCircle`, and its injectivity by `ParseSignatureInverts`. |
| `ShapeModel.GetId` | Shapes.java:36-38 | The shape's id. The constructors `MakeOval` … `MakeSquare` state that it is the id given, and `Ids.IdCounter.NewOval` … `NewSquare` that it is the counter right after the increment. |
| `ShapeModel.Signature` | Shapes.java:268 | The de-duplication key `type + " " + dimensions`. `ParseSignatureInverts` and `SignatureIdentifiesForm` state that it is equal exactly when kind and dimensions are. |
| `ShapeModel.ReportLine` | Shapes.java:278 | The printed line of a shape. `ReportLineRoundTrip` and `ReportLineInjective` state what it carries. |
| `ShapeModel.MakeOval` | Shapes.java:54-58 | An oval with the given id, label "OVAL", each radius clamped independently, and valid. |
| `ShapeModel.MakeCircle` | Shapes.java:108-110 | A circle built as `COval(r, r)`: both stored radii equal the clamped radius, label "CIRCLE", valid. |
| `ShapeModel.MakeRectangle` | Shapes.java:146-150 | A rectangle with length and width clamped independently, label "RECTANGLE", valid. |
| `ShapeModel.MakeSquare` | Shapes.java:182-184 | A square built as `CRectangle(s, s)`: length equals width equals the clamped side, label "SQUARE", valid. |
| `ShapeModel.OvalDimensions` | Shapes.java:75-78 | An oval formats as clamp(h) + "x" + clamp(v), with no spaces. |
| `ShapeModel.CircleDimensions` | Shapes.java:127-130 | A circle formats as the decimal string of its clamped radius alone. |
| `ShapeModel.RectangleDimensions` | Shapes.java:167-170 | A rectangle formats as clamp(l) + "x" + clamp(w). |
| `ShapeModel.SquareDimensions` | Shapes.java:176-195 | A square has no override and formats as clamp(s) + "x" + clamp(s). |
| `ShapeModel.SeparatorUnlessCircle` | Shapes.java:127-130 | A dimension string contains 'x' exactly when the shape is not a circle. |
| `ShapeModel.SquareIsNotCollapsed` | Shapes.java:176-195 | A square and a circle built from the same number never have the same dimension string. |
| `ShapeModel.ConstructionExamples` | Shapes.java:54-184 | COval(150,0) gives "100x1", CCircle(-5) gives "1", CRectangle(200,50) gives "100x50", CSquare(0) gives "1x1" with signature "SQUARE 1x1". |
| `ShapeModel.TypeNamesDistinct` | Shapes.java:65-68 | The four getType labels are pairwise different, so the label determines the kind. |
| `ShapeModel.ParseSignatureInverts` | Shapes.java:268 | Reading a signature back gives the kind and both stored dimensions, for any shape whose circle radii agree. |
| `ShapeModel.SignatureIdentifiesForm` | Shapes.java:268-270 | Two constructed shapes have equal signatures if and only if they have the same kind and the same dimensions. |
| `ShapeModel.ReportLineRoundTrip` | Shapes.java:278 | Reading a printed line back gives the shape's id, kind and dimensions. |
| `ShapeModel.ReportLineInjective` | Shapes.java:278 | Equal printed lines come from shapes with equal id, kind and dimensions. |
| `Decimal.NatToString` | Shapes.java:129 | The decimal rendering is never empty. |
| `Decimal.NatToStringCorrect` | Shapes.java:129 | The rendering is all digits, has no leading zero, and its digit value is the number. |
| `Decimal.IntToString` | Shapes.java:77 | The rendering of an int (minus sign, then digits) is never empty. |
| `Decimal.IntToStringChars` | Shapes.java:77 | A rendered int contains only '-' and digits. |
| `Decimal.ParseIntInverts` | Shapes.java:77 | ParseInt reads back exactly the rendered int. |
| `Decimal.IntToStringInjective` | Shapes.java:169 | Two ints render alike if and only if they are equal. |
| `Decimal.IntToStringHasNoSeparator` | Shapes.java:268 | A rendered int contains no space, no 'x' and no ':', so the separators in dimensions, signatures and report lines are unambiguous. |
| `Ids.Wrap32` | Shapes.java:7 | The result is a Java int, equals the input when the input is already an int, and agrees with the input modulo 2^32. |
| `Ids.NextId` | Shapes.java:14 | The value `++counter` leaves. `NextIdSteps` states both cases (plus one, or the wrap to the smallest int) and `Wrap32` that it stays a Java int. |
| `Ids.NextIdSteps` | Shapes.java:14 | `++counter` adds one below the largest int and wraps to the smallest int at the largest. |
| `Ids.IdAtIsWrapped` | Shapes.java:14 | After n constructions the counter is the 32-bit wrap of start + n. |
| `Ids.IdAtNoWrap` | Shapes.java:13-15 | Without overflow, the n-th id after start is start + n. |
| `Ids.IdsIncrease` | Shapes.java:13-15 | Without overflow, ids strictly increase in creation order. |
| `Ids.IdsNeverRepeat` | Shapes.java:10-15 | Two constructions fewer than 2^32 apart never get the same id, even across the wrap. |
| `Ids.IdCounter.constructor` | Shapes.java:7 | The counter starts at 0. |
| `Ids.IdCounter.Next` | Shapes.java:14 | The counter advances by one Java increment and the id is the new value. |
| `Ids.IdCounter.NewOval` | Shapes.java:54-58 | One increment, then the oval with the new counter value as its id. |
| `Ids.IdCounter.NewCircle` | Shapes.java:108-110 | One increment, then the circle with the new counter value as its id. |
| `Ids.IdCounter.NewRectangle` | Shapes.java:146-150 | One increment, then the rectangle with the new counter value as its id. |
| `Ids.IdCounter.NewSquare` | Shapes.java:182-184 | One increment, then the square with the new counter value as its id. |
| `CanvasModel.Canvas.constructor` | Shapes.java:206-208 | A new canvas is empty. |
| `CanvasModel.Canvas.AddShape` | Shapes.java:215-217 | Appends at the end. The length grows by one, earlier entries are unchanged, and the last entry is the new shape. |
| `CanvasModel.Canvas.GetShapes` | Shapes.java:224-226 | The canvas contents in insertion order. `Canvas.constructor` and `Canvas.AddShape` state what those contents are. |
| `Driver.Generate` | Shapes.java:240-254 | A shape exactly when the choice is in [0, 4), mapped 0 to OVAL, 1 to CIRCLE, 2 to RECTANGLE, 3 to SQUARE. It is valid and carries the given id. Any other choice gives the error "Unexpected value: " + choice. |
| `Driver.GenerateInRange` | Shapes.java:243-250 | With draws from `nextInt(100)`, the shape's dimensions are exactly draw + 1 and no clamping takes effect. Circles and squares use only the first draw. |
| `Driver.GenerateRandomShape` | Shapes.java:240-254 | The counter moves once exactly when a shape is constructed, and the result is `Generate` with that id. An invalid choice constructs nothing and leaves the counter alone. |
| `Driver.SignatureIgnoresId` | Shapes.java:268 | A draw's signature does not depend on the id its shape took. |
| `Driver.AdmitFresh` | Shapes.java:270-273 | Appending a shape with a new signature keeps the signatures pairwise distinct and adds exactly that signature to the set. |
| `Driver.AdmitIfNew` | Shapes.java:268-273 | The shape is kept if and only if its signature is unseen. A duplicate leaves the canvas and the seen set unchanged. Otherwise the shape is appended and its signature added. |
| `Driver.Fill` | Shapes.java:266-274 | Reference definition of the loop. `FillCorrect`, `FillOutcome` and `FillKeepsInvariant` state what it ends with, and `FillCanvas` is proved equal to it. |
| `Driver.FillStep` | Shapes.java:266-274 | One loop iteration, keeping or discarding the shape, preserves the invariant: size at most 10, distinct signatures, seen set equal to the canvas signatures and to all draws' signatures, and entries traced to their draws. |
| `Driver.FillKeepsInvariant` | Shapes.java:266-274 | The whole loop, from any state meeting the invariant, ends in a state meeting it. |
| `Driver.FillOutcome` | Shapes.java:266 | The loop reports Filled exactly when the canvas holds 10 shapes. Exhausted means every draw was used. Failed stops at the draw with the bad choice, with Java's message. |
| `Driver.FillCorrect` | Shapes.java:262-274 | From an empty canvas and seen set, the loop ends meeting the invariant. It reports Filled exactly when the canvas holds 10 shapes, Exhausted only after every draw, and Failed at the draw with the bad choice, with Java's message "Unexpected value: " + choice. |
| `Driver.FillCanvas` | Shapes.java:261-274 | The loop, updating `Canvas` in place and reassigning the seen set, ends in exactly the state `Fill` defines. The counter ends advanced once per shape constructed. |
| `Driver.DistinctForms` | Shapes.java:268-273 | No two canvas shapes share both kind and dimensions. |
| `Driver.TracedId` | Shapes.java:13-15 | Canvas entry j carries the counter value right after its own draw's construction. |
| `Driver.CanvasIdsUnique` | Shapes.java:13-15 | Canvas ids never repeat when fewer than 2^32 shapes were constructed. Discarded shapes still consume ids. |
| `Driver.CanvasIdsIncrease` | Shapes.java:13-15 | Without counter overflow, canvas ids strictly increase in canvas order, with gaps where shapes were discarded. |
| `Driver.ShapeLines` | Shapes.java:277-279 | One printed line per canvas shape, in canvas order: "Shape " + id + ": " + type + " " + dimensions. |
| `Driver.ShapeLinesDistinct` | Shapes.java:277-279 | When the signatures on the canvas are distinct, every printed shape line is different. |

## Left out

- `java.util.Random` (Shapes.java:241-250): each call's random values come in as a `Draw` of the choice and two dimension draws. `GenerateRandomShape` and `FillCanvas` require the dimension draws to lie in [0, 100), which is what `nextInt(100)` returns. The choice is unconstrained, so the `default` branch is modelled as an error result.
- Unbounded looping: the loop runs over a finite sequence of draws. It also stops when the draws run out (`Exhausted`), because an unbounded random source cannot be given a termination measure. The loop is proved correct when it does stop: 10 shapes on `Filled`.
- `IllegalStateException`: modelled as the `Failure` result and the `Failed` outcome, which carry Java's message. Process termination is not modelled.
- Printing (Shapes.java:276-279): only the strings are modelled: `Header` (the literal, whose `\n` plus `println`'s line break gives the blank line) and `ShapeLines`. Writing them to standard output is not.
- `CCanvas.getShapes` returns the live `ArrayList` that callers could mutate. `Canvas.GetShapes` returns the sequence value, so aliasing is not modelled.
- `HashSet` and `ArrayList` are Dafny `set<string>` and `seq<Shape>`. Hashing and list growth are not modelled.
- Dynamic dispatch over the class hierarchy becomes a match on the datatype. `getHorizontalRadius` and `getVerticalRadius` are the datatype's field accessors.
- `FillCanvas`: its contract states only that its end state equals `Fill`. The loop's promises are proved about `Fill` by `FillCorrect`, `DistinctForms`, `CanvasIdsUnique` and `CanvasIdsIncrease`.
