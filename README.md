# Car builder

A model of the `car` program (Go, `main.go`): the builder pattern applied to a
car with four settings — colour, wheel type, top speed and sheet count.

- `CarBuilder` is a class with those four fields. Its constructor (Go's
  `NewBuilder`) sets the defaults: colour `"blue"`, wheels `"sports"`, speed
  `MPH` (1) and 4 sheets.
- The setters `Color`, `Wheels`, `TopSpeed` and `Sheets` each overwrite one
  field, accept any argument, and return the very builder they were called on.
  A chained call therefore mutates one shared object.
- `Build` reads the builder and copies its fields by value into a `Car`. The car
  is a `SportsWheelCar` when the wheel type equals `"sports"`. For `"steel"` and
  for every other string it is a `SteelWheelCar`. The `GenericCar` variant
  exists as data only and is never built.

The meaning of these operations is stated on values. `Params` is the settings
record a car keeps. `Setter` is one setter call with its argument. `Apply` is the
effect of one call and `Run` the effect of a chain of calls. `Overlay` is the
independent reference definition of a chain: every field is the argument of the
last call that wrote it, or the starting value. Each class method is proved
against these functions. The lemmas prove last-write-wins and the commutation
of calls on different fields.

Colour and wheel type are plain strings. The code does not validate them
(`type Color string`, `type Wheels string`), so an unknown wheel string is
accepted and gives a steel-wheel car.

## Model

| member | source | states |
|---|---|---|
| `Cars.CarBuilder.constructor` | main.go:61-68 | a new builder holds colour "blue", wheels "sports", speed MPH and 4 sheets |
| `Cars.CarBuilder.Color` | main.go:70-73 | sets the colour to the argument, leaves the other three fields unchanged, returns the same builder |
| `Cars.CarBuilder.Wheels` | main.go:75-78 | sets the wheel type to the argument (any string), leaves the other three fields unchanged, returns the same builder |
| `Cars.CarBuilder.TopSpeed` | main.go:80-83 | sets the top speed to the argument, leaves the other three fields unchanged, returns the same builder |
| `Cars.CarBuilder.Sheets` | main.go:85-88 | sets the sheet count to any int, zero and negative included, leaves the other fields unchanged, returns the same builder |
| `Cars.CarBuilder.Build` | main.go:90-99 | changes nothing; the car's params equal the builder's fields at the call; sports-wheel car exactly when wheels == "sports", steel-wheel car otherwise |
| `Cars.BuildCar` | main.go:90-99 | the built car holds the given settings; it is a sports-wheel car iff wheels is "sports", a steel-wheel car iff not, and never the generic car |
| `Cars.Apply` | main.go:70-88 | one setter call writes its argument into its own field and keeps the other three |
| `Cars.RunConcat` | main.go:70-88 | running two chains of setter calls one after the other equals running their concatenation |
| `Cars.RunIsOverlay` | main.go:70-88 | after any chain of setter calls, each field holds the argument of the last call that wrote it, or its starting value |
| `Cars.SameLastWritesSameResult` | main.go:70-88 | two chains with the same last write per field end in the same settings, whatever the order of the other calls |
| `Cars.SwapDistinctFields` | main.go:70-88 | two adjacent setter calls on different fields commute anywhere in a chain |
| `Cars.OverwriteSameField` | main.go:70-88 | of two adjacent setter calls on the same field, only the second has an effect |
| `Cars.RebuildAfterChange` | main.go:90-99 | a car built earlier keeps its settings after the builder is changed; a second build sees the change |
| `Cars.ExampleCar` | main.go:131-132 | the demonstration chain (blue, sports, KPH, 2 sheets) on one shared builder yields a sports-wheel car with exactly those settings |

## Left out

- `Drive` and `Stop` on the three car variants (main.go:101-129) only print the car's settings with a variant-specific label and always return `nil`; console output is not modelled.
- The calls to `Drive` and `Stop` in `main` (main.go:133-134) are left out for the same reason; `ExampleCar` models the chain and the build.
- `Speed` is `float64` in the code; the model stores it as a `real` and never computes with it, so floating-point rounding of `KPH` (1.60934) is not modelled.
- `Sheets` takes a Go `int` (64 bits on common platforms); the model takes an unbounded `int`. No arithmetic is done on it, so no wrap-around can arise.
- The Go interfaces `Builder` and `Interface` (main.go:29-40) are not modelled as types; the setters return the `CarBuilder` class itself and `Build` returns the `Car` datatype.
- The named type `Sheets` (main.go:27) is unused by the code and is not modelled.
