/**
  A car configured with the builder pattern.

  A `CarBuilder` is a mutable record of four settings (colour, wheel type,
  top speed, sheet count). It starts from fixed defaults; each setter
  overwrites one setting and hands back the very same builder, so calls can be
  chained; `Build` copies the current settings by value into one of the car
  variants, chosen by the wheel type alone.

  The first half of the module states the meaning of all this on values: the
  settings record `Params`, the car variants `Car`, one setter call as the
  datatype `Setter` and a chain of calls as a sequence of them. The second half
  is the builder itself, as a class whose methods are proved against those
  functions.
 */
module Cars {

  /** Top speed is a unit multiplier that is only ever stored, never computed with. */
  type Speed = real

  const MPH: Speed := 1.0
  const KPH: Speed := 1.60934

  /** Colours and wheel types are unvalidated strings; these are the named ones. */
  const BlueColor: string := "blue"
  const GreenColor: string := "green"
  const RedColor: string := "red"

  const SportsWheels: string := "sports"
  const SteelWheels: string := "steel"

  /** The four settings, as the immutable copy a car keeps. */
  datatype Params = Params(color: string, wheels: string, speed: Speed, sheets: int)

  /** The car variants; each holds the settings it was built with. */
  datatype Car =
    | GenericCar(params: Params)
    | SportsWheelCar(params: Params)
    | SteelWheelCar(params: Params)

  /** The settings of a builder nobody has configured yet. */
  function Defaults(): Params
  {
    Params(BlueColor, SportsWheels, MPH, 4)
  }

  /** What `Build` produces from a given set of settings. */
  function BuildCar(p: Params): (c: Car)
    ensures c.params == p
    ensures c.SportsWheelCar? <==> p.wheels == SportsWheels
    ensures c.SteelWheelCar? <==> p.wheels != SportsWheels
    ensures !c.GenericCar?
  {
    if p.wheels == SportsWheels then SportsWheelCar(p) else SteelWheelCar(p)
  }

  // ---------------------------------------------------------------------------
  // Setter calls and chains of them

  /** The four settings, as names. */
  datatype Field = ColorField | WheelsField | SpeedField | SheetsField

  /** One setter call with its argument. */
  datatype Setter =
    | SetColor(string)
    | SetWheels(string)
    | SetTopSpeed(Speed)
    | SetSheets(int)

  datatype Option<T> = None | Some(value: T)

  /** The setting a setter call writes. */
  function FieldOf(s: Setter): Field
  {
    match s
    case SetColor(_) => ColorField
    case SetWheels(_) => WheelsField
    case SetTopSpeed(_) => SpeedField
    case SetSheets(_) => SheetsField
  }

  /** The effect of one setter call on the settings: its own field takes the
      argument, whatever it is, and the other three keep their values. */
  function Apply(p: Params, s: Setter): (q: Params)
    ensures FieldOf(s) != ColorField ==> q.color == p.color
    ensures FieldOf(s) != WheelsField ==> q.wheels == p.wheels
    ensures FieldOf(s) != SpeedField ==> q.speed == p.speed
    ensures FieldOf(s) != SheetsField ==> q.sheets == p.sheets
    ensures match s
            case SetColor(c) => q.color == c
            case SetWheels(w) => q.wheels == w
            case SetTopSpeed(v) => q.speed == v
            case SetSheets(n) => q.sheets == n
  {
    match s
    case SetColor(c) => p.(color := c)
    case SetWheels(w) => p.(wheels := w)
    case SetTopSpeed(v) => p.(speed := v)
    case SetSheets(n) => p.(sheets := n)
  }

  /** The effect of a chain of setter calls, performed left to right. */
  function Run(p: Params, ops: seq<Setter>): Params
    decreases |ops|
  {
    if ops == [] then p else Run(Apply(p, ops[0]), ops[1..])
  }

  /** The last call in `ops` that writes field `f`, if any. */
  function LastWrite(ops: seq<Setter>, f: Field): (r: Option<Setter>)
    ensures r.None? <==> forall i :: 0 <= i < |ops| ==> FieldOf(ops[i]) != f
    ensures r.Some? ==> exists i :: 0 <= i < |ops| && ops[i] == r.value
                                    && FieldOf(ops[i]) == f
                                    && forall j :: i < j < |ops| ==> FieldOf(ops[j]) != f
    decreases |ops|
  {
    if ops == [] then None
    else if FieldOf(ops[|ops| - 1]) == f then Some(ops[|ops| - 1])
    else LastWrite(ops[..|ops| - 1], f)
  }

  /** Reference semantics of a chain: every setting is the argument of the last
      call that wrote it, or the starting value if no call did. */
  function Overlay(p: Params, ops: seq<Setter>): Params
  {
    Params(
      match LastWrite(ops, ColorField) case Some(SetColor(c)) => c case _ => p.color,
      match LastWrite(ops, WheelsField) case Some(SetWheels(w)) => w case _ => p.wheels,
      match LastWrite(ops, SpeedField) case Some(SetTopSpeed(v)) => v case _ => p.speed,
      match LastWrite(ops, SheetsField) case Some(SetSheets(n)) => n case _ => p.sheets)
  }

  /** Running two chains one after the other is running their concatenation. */
  lemma {:induction false} RunConcat(p: Params, u: seq<Setter>, v: seq<Setter>)
    ensures Run(p, u + v) == Run(Run(p, u), v)
    decreases |u|
  {
    if u != [] {
      assert (u + v)[0] == u[0];
      assert (u + v)[1..] == u[1..] + v;
      RunConcat(Apply(p, u[0]), u[1..], v);
    } else {
      assert u + v == v;
    }
  }

  /** One more call at the end of a chain applies to the chain's result. */
  lemma RunSnoc(p: Params, ops: seq<Setter>, s: Setter)
    ensures Run(p, ops + [s]) == Apply(Run(p, ops), s)
  {
    RunConcat(p, ops, [s]);
    assert Run(Apply(Run(p, ops), s), []) == Apply(Run(p, ops), s);
  }

  /** Last write wins, field by field: a chain ends in its reference semantics. */
  lemma {:induction false} RunIsOverlay(p: Params, ops: seq<Setter>)
    ensures Run(p, ops) == Overlay(p, ops)
    decreases |ops|
  {
    if ops != [] {
      var init, s := ops[..|ops| - 1], ops[|ops| - 1];
      assert ops == init + [s];
      RunIsOverlay(p, init);
      RunSnoc(p, init, s);
    }
  }

  /** Only the last write to each field matters: two chains that agree on it
      have the same final effect, whatever the order of the other calls. */
  lemma SameLastWritesSameResult(p: Params, ops1: seq<Setter>, ops2: seq<Setter>)
    requires forall f :: LastWrite(ops1, f) == LastWrite(ops2, f)
    ensures Run(p, ops1) == Run(p, ops2)
  {
    RunIsOverlay(p, ops1);
    RunIsOverlay(p, ops2);
    assert LastWrite(ops1, ColorField) == LastWrite(ops2, ColorField);
    assert LastWrite(ops1, WheelsField) == LastWrite(ops2, WheelsField);
    assert LastWrite(ops1, SpeedField) == LastWrite(ops2, SpeedField);
    assert LastWrite(ops1, SheetsField) == LastWrite(ops2, SheetsField);
  }

  /** Two adjacent calls on different fields commute, anywhere in a chain. */
  lemma SwapDistinctFields(p: Params, xs: seq<Setter>, a: Setter, b: Setter, ys: seq<Setter>)
    requires FieldOf(a) != FieldOf(b)
    ensures Run(p, xs + [a, b] + ys) == Run(p, xs + [b, a] + ys)
  {
    RunConcat(p, xs + [a, b], ys);
    RunConcat(p, xs + [b, a], ys);
    assert xs + [a, b] == (xs + [a]) + [b] && xs + [b, a] == (xs + [b]) + [a];
    RunSnoc(p, xs + [a], b);
    RunSnoc(p, xs, a);
    RunSnoc(p, xs + [b], a);
    RunSnoc(p, xs, b);
  }

  /** Of two adjacent calls on the same field, the first has no effect. */
  lemma OverwriteSameField(p: Params, xs: seq<Setter>, a: Setter, b: Setter, ys: seq<Setter>)
    requires FieldOf(a) == FieldOf(b)
    ensures Run(p, xs + [a, b] + ys) == Run(p, xs + [b] + ys)
  {
    RunConcat(p, xs + [a, b], ys);
    RunConcat(p, xs + [b], ys);
    assert xs + [a, b] == (xs + [a]) + [b];
    RunSnoc(p, xs + [a], b);
    RunSnoc(p, xs, a);
    RunSnoc(p, xs, b);
  }

  // ---------------------------------------------------------------------------
  // The builder

  class CarBuilder {
    var color: string
    var wheels: string
    var speed: Speed
    var sheets: int

    /** The current settings, as the value `Build` copies. */
    function Snapshot(): Params
      reads this
    {
      Params(color, wheels, speed, sheets)
    }

    /** A new builder holds the default settings. */
    constructor ()
      ensures Snapshot() == Defaults()
      ensures color == "blue" && wheels == "sports" && speed == MPH && sheets == 4
    {
      color := BlueColor;
      wheels := SportsWheels;
      speed := MPH;
      sheets := 4;
    }

    method Color(c: string) returns (b: CarBuilder)
      modifies this
      ensures b == this
      ensures Snapshot() == Apply(old(Snapshot()), SetColor(c))
      ensures color == c && wheels == old(wheels) && speed == old(speed) && sheets == old(sheets)
    {
      color := c;
      b := this;
    }

    method Wheels(w: string) returns (b: CarBuilder)
      modifies this
      ensures b == this
      ensures Snapshot() == Apply(old(Snapshot()), SetWheels(w))
      ensures wheels == w && color == old(color) && speed == old(speed) && sheets == old(sheets)
    {
      wheels := w;
      b := this;
    }

    method TopSpeed(v: Speed) returns (b: CarBuilder)
      modifies this
      ensures b == this
      ensures Snapshot() == Apply(old(Snapshot()), SetTopSpeed(v))
      ensures speed == v && color == old(color) && wheels == old(wheels) && sheets == old(sheets)
    {
      speed := v;
      b := this;
    }

    /** Any count is accepted, zero and negative ones included. */
    method Sheets(n: int) returns (b: CarBuilder)
      modifies this
      ensures b == this
      ensures Snapshot() == Apply(old(Snapshot()), SetSheets(n))
      ensures sheets == n && color == old(color) && wheels == old(wheels) && speed == old(speed)
    {
      sheets := n;
      b := this;
    }

    /** Reads the builder and changes nothing: the car holds a copy of the
        current settings, and is a sports-wheel car exactly when the wheel
        type is "sports"; every other string gives a steel-wheel car.
        The branch follows the code's own shape; `BuildCar` is its specification. */
    method Build() returns (c: Car)
      ensures c == BuildCar(Snapshot())
      ensures c.params == Params(color, wheels, speed, sheets)
      ensures c.SportsWheelCar? <==> wheels == SportsWheels
      ensures c.SteelWheelCar? <==> wheels != SportsWheels
    {
      if wheels == SportsWheels {
        c := SportsWheelCar(Snapshot());
      } else {
        c := SteelWheelCar(Snapshot());
      }
    }
  }

  /** The demonstration chain: one builder configured through four chained
      calls, each handing back the same object, then built. */
  method ExampleCar() returns (c: Car)
    ensures c.params == Run(Defaults(), [SetColor(BlueColor), SetWheels(SportsWheels),
                                         SetTopSpeed(KPH), SetSheets(2)])
    ensures c == SportsWheelCar(Params("blue", "sports", KPH, 2))
  {
    var b0 := new CarBuilder();
    var b1 := b0.Color(BlueColor);
    var b2 := b1.Wheels(SportsWheels);
    var b3 := b2.TopSpeed(KPH);
    var b4 := b3.Sheets(2);
    assert b4 == b0;
    c := b4.Build();
    ghost var chain := [SetColor(BlueColor), SetWheels(SportsWheels), SetTopSpeed(KPH), SetSheets(2)];
    assert chain[..1] == [] + [chain[0]];
    assert chain[..2] == chain[..1] + [chain[1]];
    assert chain[..3] == chain[..2] + [chain[2]];
    assert chain == chain[..3] + [chain[3]];
    RunSnoc(Defaults(), [], chain[0]);
    RunSnoc(Defaults(), chain[..1], chain[1]);
    RunSnoc(Defaults(), chain[..2], chain[2]);
    RunSnoc(Defaults(), chain[..3], chain[3]);
  }

  /** A car keeps the settings it was built with when its builder is changed
      and used again afterwards; the second car sees the change. */
  method RebuildAfterChange(b: CarBuilder, w: string) returns (first: Car, second: Car)
    modifies b
    ensures first == BuildCar(old(b.Snapshot()))
    ensures second == BuildCar(old(b.Snapshot()).(wheels := w))
    ensures b.Snapshot() == old(b.Snapshot()).(wheels := w)
  {
    first := b.Build();
    var _ := b.Wheels(w);
    second := b.Build();
  }
}
