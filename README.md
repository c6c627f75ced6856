# Compass heading and compass faces, modelled in Dafny

This project models the core of an Android compass app. There are two parts.

**The heading post-processor** (`utils/Compass.kt`) receives sensor events one at a time:
- A rotation-vector event latches the compass onto that sensor for good.
- Before the latch, magnetometer and accelerometer events feed two exponentially smoothed vectors.
- The raw azimuth, pitch and roll are remapped for the screen rotation. This includes the "device upside down" reflection.
- The azimuth is brought into [0°, 360°) with Kotlin's truncating `%`.
- The listener is called only when a change passes one of three per-axis sensibility thresholds, or when the last azimuth sent was exactly 0.

**The compass faces** hold the pure and loop-based table and label logic:
- The degree and sector readout (`AngleLabelPainter`).
- The 15° labelled table (`LabeledCompassView`).
- The 30° tick table (`SimpleTwoCompassView`).
- The 15 × 26 dot grid, with its per-angle index and nearest-angle search (`DottedCompassView`).

## Layout

| file | module | models |
|---|---|---|
| `kotlin_runtime.dfy` | `Wrappers`, `KotlinRuntime` | `Float.toInt()`, `Float` `%`, the `"%.2f"` format-and-parse round trip, `Int.toString()` |
| `linked_map.dfy` | `LinkedMaps` | `mutableMapOf()`, a `LinkedHashMap`, with insertion-ordered keys |
| `compass_face.dfy` | `CompassFace` | a dial point as (angle, radius), in place of the cos/sin coordinates |
| `compass.dfy` | `CompassSensor` | `Compass`: the pure `Step` state machine, and the class `Compass` whose methods are proved to follow it |
| `angle_label_painter.dfy` | `AngleLabel` | `AngleLabelPainter` |
| `labeled_compass_view.dfy` | `LabeledCompass` | `LabeledCompassView` |
| `simple_two_compass_view.dfy` | `SimpleTwoCompass` | `SimpleTwoCompassView` |
| `dotted_compass_view.dfy` | `DottedCompass` | `DottedCompassView` |

Each stateful Kotlin class is a Dafny `class` whose methods update its fields. Each method is proved against a pure specification function: `Step` for `onSensorChanged`, `LineTable` for `calculateLines`, and `Grid`/`Group` for `calculateDots`. The lemmas then state the source's promises about those functions.

All numbers are exact reals or unbounded integers. Two source behaviours are written out explicitly:
- `Float.toInt()` truncates toward zero.
- `%` on `Float` takes the sign of the dividend.

`String.format(Locale.US, "%.2f", x).toFloat()` is modelled as half-up rounding to hundredths.

## Model

| member | source | states |
|---|---|---|
| KotlinRuntime.Abs | app/src/main/java/com/github/naz013/compassapp/utils/Compass.kt:209-211 | `Math.abs`: the result is non-negative and is the value or its negation |
| KotlinRuntime.Trunc | app/src/main/java/com/github/naz013/compassapp/view/AngleLabelPainter.kt:25 | `Float.toInt()` rounds toward zero: for x ≥ 0 it is the largest whole number ≤ x; for x < 0 it is the smallest whole number ≥ x |
| KotlinRuntime.FloatRem | app/src/main/java/com/github/naz013/compassapp/utils/Compass.kt:206 | `Float` `%` takes the sign of the dividend: in [0, m) for x ≥ 0 and in (−m, 0] for x < 0 |
| KotlinRuntime.FloatRemCongruent | app/src/main/java/com/github/naz013/compassapp/utils/Compass.kt:206 | the remainder differs from x by a whole number of m |
| KotlinRuntime.RoundHundredths | app/src/main/java/com/github/naz013/compassapp/view/DottedCompassView.kt:206-211 | the `"%.2f"` round trip moves a value by at most half a hundredth and yields a whole number of hundredths |
| KotlinRuntime.RoundHundredthsZero | app/src/main/java/com/github/naz013/compassapp/view/LabeledCompassView.kt:140-146 | a value rounds to 0 exactly when it lies strictly within 0.005 of 0; this is the anchor test of all three faces |
| KotlinRuntime.RoundHundredthsIntegral | app/src/main/java/com/github/naz013/compassapp/view/LabeledCompassView.kt:140-141 | whole degrees survive the two-decimal round trip unchanged |
| KotlinRuntime.NatToString | app/src/main/java/com/github/naz013/compassapp/view/LabeledCompassView.kt:175 | decimal digits only, at least one, and no leading zero except for 0 |
| KotlinRuntime.IntToString | app/src/main/java/com/github/naz013/compassapp/view/AngleLabelPainter.kt:41 | `Int.toString()`: non-empty, with a leading '-' exactly for negative numbers |
| KotlinRuntime.ParseNatToString | app/src/main/java/com/github/naz013/compassapp/view/LabeledCompassView.kt:175 | reading the decimal digits back gives the number |
| KotlinRuntime.IntToStringRoundTrip | app/src/main/java/com/github/naz013/compassapp/view/AngleLabelPainter.kt:41 | parsing `Int.toString()` gives the integer back |
| KotlinRuntime.IntToStringInjective | app/src/main/java/com/github/naz013/compassapp/view/LabeledCompassView.kt:175 | different integers print differently |
| LinkedMaps.Empty | app/src/main/java/com/github/naz013/compassapp/view/LabeledCompassView.kt:131 | `clear()` leaves a well-formed map with no keys |
| LinkedMaps.Put | app/src/main/java/com/github/naz013/compassapp/view/LabeledCompassView.kt:134 | `m[k] = v` sets the entry; a new key goes to the end of the iteration order and an existing key keeps its place |
| LinkedMaps.Values | app/src/main/java/com/github/naz013/compassapp/view/LabeledCompassView.kt:70 | `values` lists the entries in key order, one per key |
| LinkedMaps.FromKeys | app/src/main/java/com/github/naz013/compassapp/view/LabeledCompassView.kt:131-136 | putting each key in turn into a cleared map gives a well-formed map; with distinct keys it iterates in exactly that order |
| LinkedMaps.FromKeysValues | app/src/main/java/com/github/naz013/compassapp/view/LabeledCompassView.kt:131-136 | the k-th value of such a map is f of the k-th key |
| LinkedMaps.FromKeysEntries | app/src/main/java/com/github/naz013/compassapp/view/LabeledCompassView.kt:131-136 | the map holds exactly the keys put, with no stale entries, each mapped to f of itself |
| LinkedMaps.FromKeysSnoc | app/src/main/java/com/github/naz013/compassapp/view/LabeledCompassView.kt:133-136 | one more turn of the filling loop is one more `Put` |
| CompassSensor.PresentKinds | app/src/main/java/com/github/naz013/compassapp/utils/Compass.kt:102-110 | the kinds `start` registers are exactly the sensors the device has |
| CompassSensor.SmoothedWithoutSmoothing | app/src/main/java/com/github/naz013/compassapp/utils/Compass.kt:232-243 | α = 1 gives the new sample |
| CompassSensor.SmoothedFrozen | app/src/main/java/com/github/naz013/compassapp/utils/Compass.kt:232-243 | α = 0 keeps the previous vector, cut to the sample's length |
| CompassSensor.SmoothedSteady | app/src/main/java/com/github/naz013/compassapp/utils/Compass.kt:240-243 | a sample equal to the previous vector leaves it unchanged, for any α |
| CompassSensor.SmoothedContracts | app/src/main/java/com/github/naz013/compassapp/utils/Compass.kt:240-242 | each component closes the gap to the sample by the factor 1 − α; for 0 ≤ α ≤ 1 it lies between the old value and the new one |
| CompassSensor.ReflectZero | app/src/main/java/com/github/naz013/compassapp/utils/Compass.kt:183-184 | the upside-down reflection maps 0 to −180 |
| CompassSensor.ReflectInvolution | app/src/main/java/com/github/naz013/compassapp/utils/Compass.kt:183-184 | away from 0 and ±180 the reflection undoes itself |
| CompassSensor.FlipBringsRollIntoRange | app/src/main/java/com/github/naz013/compassapp/utils/Compass.kt:181-185 | a roll in [−180, 180] ends in [−90, 90]; the flip turns the azimuth by 180 exactly when the roll is at or beyond ±90, and otherwise changes nothing |
| CompassSensor.CorrectionShift | app/src/main/java/com/github/naz013/compassapp/utils/Compass.kt:177-203 | the screen correction adds between 0° and 450° to the azimuth |
| CompassSensor.NormalizeAzimuthInRange | app/src/main/java/com/github/naz013/compassapp/utils/Compass.kt:206 | for every azimuth ≥ −360 the result is in [0, 360) and differs from the input by whole turns |
| CompassSensor.NormalizeAzimuthBelowRange | app/src/main/java/com/github/naz013/compassapp/utils/Compass.kt:206 | below −360 the result stays in (−360, 0], so the guarantee needs its lower bound |
| CompassSensor.ZeroSensibilityAlwaysNotifies | app/src/main/java/com/github/naz013/compassapp/utils/Compass.kt:94-96 | with all thresholds 0 every sample passes the gate |
| CompassSensor.FullTurnSensibilityIgnoresAzimuth | app/src/main/java/com/github/naz013/compassapp/utils/Compass.kt:209-212 | an azimuth threshold of 360 switches the azimuth clause off; the gate is then exactly the other three clauses |
| CompassSensor.LatchIsOneWay | app/src/main/java/com/github/naz013/compassapp/utils/Compass.kt:137-142 | after an event the latch is set exactly when it was already set or the event is a rotation-vector event |
| CompassSensor.FusionEventIgnoredAfterLatch | app/src/main/java/com/github/naz013/compassapp/utils/Compass.kt:152-171 | after the latch, magnetometer and accelerometer events change no field and notify nobody |
| CompassSensor.FusionEventUpdatesOwnVector | app/src/main/java/com/github/naz013/compassapp/utils/Compass.kt:152-162 | before the latch, a magnetometer event smooths only the geomagnetic vector and an accelerometer event smooths only gravity |
| CompassSensor.SmoothedRotationVectorUnused | app/src/main/java/com/github/naz013/compassapp/utils/Compass.kt:144-151 | the smoothed rotation vector has no effect on the angles or on the notification |
| CompassSensor.NotifiesExactlyWhenGateOpens | app/src/main/java/com/github/naz013/compassapp/utils/Compass.kt:169-218 | an event that is not processed changes nothing; a processed one notifies exactly when the gate opens, with the new angles, which become the last sent; otherwise the last sent stay |
| CompassSensor.ZeroHeadingOpensGate | app/src/main/java/com/github/naz013/compassapp/utils/Compass.kt:212 | a last azimuth of exactly 0 makes any processed event notify |
| CompassSensor.PublishKeepsRange | app/src/main/java/com/github/naz013/compassapp/utils/Compass.kt:175-218 | raw angles in the `getOrientation` ranges give current and last angles in the documented ranges |
| CompassSensor.StepKeepsRange | app/src/main/java/com/github/naz013/compassapp/utils/Compass.kt:133-220 | one event keeps the current and last angles in the documented ranges |
| CompassSensor.RunKeepsRange | app/src/main/java/com/github/naz013/compassapp/utils/Compass.kt:133-220 | over any sequence of events every value delivered has azimuth in [0, 360), pitch in [−180, 180] and roll in [−90, 90] |
| CompassSensor.RunLatch | app/src/main/java/com/github/naz013/compassapp/utils/Compass.kt:137-142 | at the end of a run the latch is set exactly when it was set before or some event was a rotation-vector event |
| CompassSensor.LateFusionEventsIgnored | app/src/main/java/com/github/naz013/compassapp/utils/Compass.kt:152-171 | once latched, any run of magnetometer and accelerometer events leaves the state unchanged and delivers nothing |
| CompassSensor.UpsideDownExample | app/src/main/java/com/github/naz013/compassapp/utils/Compass.kt:178-185 | portrait with roll 100°: (10, 95, 100) becomes (190, 85, 80) |
| CompassSensor.QuarterTurnExample | app/src/main/java/com/github/naz013/compassapp/utils/Compass.kt:186-189 | rotation 90°: azimuth +90, pitch takes the roll and roll takes the negated pitch |
| CompassSensor.GatingExample | app/src/main/java/com/github/naz013/compassapp/utils/Compass.kt:209-218 | azimuths 10, 12, 14, 20 with a 5° threshold deliver only 10 and 20 |
| CompassSensor.LevelStep | app/src/main/java/com/github/naz013/compassapp/utils/Compass.kt:137-218 | a level sample at rotation 0 yields its own azimuth, which is delivered exactly when the gate opens |
| CompassSensor.NormalizeExample | app/src/main/java/com/github/naz013/compassapp/utils/Compass.kt:206 | an azimuth already in [0, 360) is unchanged |
| CompassSensor.Compass.constructor | app/src/main/java/com/github/naz013/compassapp/utils/Compass.kt:17-75 | nothing is latched or registered, all angles and thresholds are 0, and the vectors are zero arrays of sizes 5, 3 and 3 |
| CompassSensor.Compass.HasRequiredSensors | app/src/main/java/com/github/naz013/compassapp/utils/Compass.kt:78-89 | true exactly when a rotation-vector sensor is present, or both a magnetometer and an accelerometer |
| CompassSensor.Compass.NewInstance | app/src/main/java/com/github/naz013/compassapp/utils/Compass.kt:258-265 | null exactly when the required sensors are missing; otherwise a fresh compass in its initial state |
| CompassSensor.Compass.Start | app/src/main/java/com/github/naz013/compassapp/utils/Compass.kt:98-111 | sets the three thresholds exactly, registers every sensor present, and changes nothing else |
| CompassSensor.Compass.StartWithDefaults | app/src/main/java/com/github/naz013/compassapp/utils/Compass.kt:117-119 | `start()` is `start(0, 0, 0)` |
| CompassSensor.Compass.Stop | app/src/main/java/com/github/naz013/compassapp/utils/Compass.kt:125-130 | zeroes the thresholds and unregisters everything; the latch, the vectors and the last angles sent are unchanged |
| CompassSensor.Compass.ExponentialSmoothing | app/src/main/java/com/github/naz013/compassapp/utils/Compass.kt:235-244 | the loop fills an array of the sample's length with `last[i] + α·(new[i] − last[i])`, or returns the sample when there is no previous vector |
| CompassSensor.Compass.CorrectForRotation | app/src/main/java/com/github/naz013/compassapp/utils/Compass.kt:175-203 | the field updates give exactly the screen-rotation table: 0°, 90°, 180° and 270° with the upside-down flip, and any other value keeps pitch and roll |
| CompassSensor.Compass.PublishOrientation | app/src/main/java/com/github/naz013/compassapp/utils/Compass.kt:175-218 | correction, normalisation and gating move the fields, and decide the notification, exactly as `Publish` |
| CompassSensor.Compass.OnSensorChanged | app/src/main/java/com/github/naz013/compassapp/utils/Compass.kt:133-220 | the new fields and the listener call are exactly `Step` of the old fields; registrations are unchanged |
| AngleLabel.FirstMatch | app/src/main/java/com/github/naz013/compassapp/view/AngleLabelPainter.kt:63-70 | the result is "N" or the label of one of the ranges |
| AngleLabel.FirstMatchIsFirst | app/src/main/java/com/github/naz013/compassapp/view/AngleLabelPainter.kt:63-70 | the earliest range containing the degree gives the label, and "N" is given when no range contains it |
| AngleLabel.FindSub | app/src/main/java/com/github/naz013/compassapp/view/AngleLabelPainter.kt:63-84 | the label is one of N, NE, E, SE, S, SW, W, NW |
| AngleLabel.FindSubSectors | app/src/main/java/com/github/naz013/compassapp/view/AngleLabelPainter.kt:63-84 | the sectors as intervals: the ranges are closed, so a shared boundary belongs to the earlier sector |
| AngleLabel.FindSubNorth | app/src/main/java/com/github/naz013/compassapp/view/AngleLabelPainter.kt:69-83 | below 22.5 or above 337.5, negative degrees included, the label is "N" |
| AngleLabel.SectorSelected | app/src/main/java/com/github/naz013/compassapp/view/AngleLabelPainter.kt:64-67 | a sector that contains the degree, when every earlier sector ends below the degree, gives the label |
| AngleLabel.SharedBoundaryExample | app/src/main/java/com/github/naz013/compassapp/view/AngleLabelPainter.kt:77-78 | 67.5 gives "NE" |
| AngleLabel.TopHeight | app/src/main/java/com/github/naz013/compassapp/view/AngleLabelPainter.kt:25 | for a positive height the top part's height is in [0, height) |
| AngleLabel.Halves | app/src/main/java/com/github/naz013/compassapp/view/AngleLabelPainter.kt:25-35 | the two halves share the left and right edges, meet at `top + topHeight`, and tile the bounds vertically |
| AngleLabel.PlaceText | app/src/main/java/com/github/naz013/compassapp/view/AngleLabelPainter.kt:53-61 | the text is centred horizontally; with TOP the baseline is at or below the top edge, otherwise at or above the bottom edge |
| AngleLabel.DegreeText | app/src/main/java/com/github/naz013/compassapp/view/AngleLabelPainter.kt:41 | the heading text ends in "°" |
| AngleLabel.DegreeTextReadsBack | app/src/main/java/com/github/naz013/compassapp/view/AngleLabelPainter.kt:41 | the heading text reads back as the degree truncated toward zero; anything in (−1, 1) shows "0°" |
| AngleLabel.AngleLabelPainter.constructor | app/src/main/java/com/github/naz013/compassapp/view/AngleLabelPainter.kt:12-20 | both colours are blue, empty rectangles, text sizes 25 and 15, degree 0 |
| AngleLabel.AngleLabelPainter.UpdateBounds | app/src/main/java/com/github/naz013/compassapp/view/AngleLabelPainter.kt:22-36 | zero width or height changes nothing; otherwise the two rectangles become the halves of the bounds; no other field changes |
| AngleLabel.AngleLabelPainter.SetPalette | app/src/main/java/com/github/naz013/compassapp/view/AngleLabelPainter.kt:48-51 | only the two colour fields change, and they take the palette's secondary colours |
| AngleLabel.AngleLabelPainter.Draw | app/src/main/java/com/github/naz013/compassapp/view/AngleLabelPainter.kt:38-46 | first the truncated degree with "°" at the bottom of the top half, then the sector at the top of the bottom half, each in its colour and size |
| LabeledCompass.LineKeys | app/src/main/java/com/github/naz013/compassapp/view/LabeledCompassView.kt:132-136 | the loop's keys are the 24 values k·15 for k = 0 … 23 |
| LabeledCompass.NewLabel | app/src/main/java/com/github/naz013/compassapp/view/LabeledCompassView.kt:169-178 | 0, 90, 180 and 270 give N, E, S and W; any other angle has a text exactly when its truncation is a multiple of 10, and that text reads back as the truncation |
| LabeledCompass.GridLabel | app/src/main/java/com/github/naz013/compassapp/view/LabeledCompassView.kt:166-177 | on the 15° grid: the cardinals, the number at the other multiples of 30°, and no text at the odd multiples of 15° |
| LabeledCompass.Dot | app/src/main/java/com/github/naz013/compassapp/view/LabeledCompassView.kt:139-167 | the mark of an angle is on the rim, is labelled with `newLabel` of the rounded angle, and is the anchor exactly when the angle rounds to 0 |
| LabeledCompass.LineKeysDistinct | app/src/main/java/com/github/naz013/compassapp/view/LabeledCompassView.kt:132-136 | no key is put twice |
| LabeledCompass.LineTableShape | app/src/main/java/com/github/naz013/compassapp/view/LabeledCompassView.kt:130-137 | the table holds exactly the 24 keys 0, 15, …, 345, in that order, and nothing else; the k-th entry is the mark of k·15° |
| LabeledCompass.LineTableValue | app/src/main/java/com/github/naz013/compassapp/view/LabeledCompassView.kt:134 | the k-th value of the table is the mark of k·15° |
| LabeledCompass.DotAtKey | app/src/main/java/com/github/naz013/compassapp/view/LabeledCompassView.kt:134 | the mark put for the k-th key is the mark of k·15° |
| LabeledCompass.TableEntry | app/src/main/java/com/github/naz013/compassapp/view/LabeledCompassView.kt:134 | the k-th value of the table is the mark of the k-th key |
| LabeledCompass.LineTableAnchor | app/src/main/java/com/github/naz013/compassapp/view/LabeledCompassView.kt:146-166 | only the 0° entry is the anchor |
| LabeledCompass.LineTableLabels | app/src/main/java/com/github/naz013/compassapp/view/LabeledCompassView.kt:166-177 | the text of each of the 24 entries: N, E, S and W at the quarters, numbers at the other multiples of 30°, and no text elsewhere |
| LabeledCompass.TextsExactly | app/src/main/java/com/github/naz013/compassapp/view/LabeledCompassView.kt:70-85 | the text list collects exactly the entries that are the anchor or have a text |
| LabeledCompass.MarksExactly | app/src/main/java/com/github/naz013/compassapp/view/LabeledCompassView.kt:70-85 | a dot is drawn at exactly the entries that are neither the anchor nor labelled, and the arrowhead only for an anchor when an arrow exists |
| LabeledCompass.GridMarkLabelled | app/src/main/java/com/github/naz013/compassapp/view/LabeledCompassView.kt:70-85 | the mark of k·15° goes to the text pass exactly when k is even |
| LabeledCompass.LineTableTexts | app/src/main/java/com/github/naz013/compassapp/view/LabeledCompassView.kt:70-137 | on the full table exactly the entries at multiples of 30° are written as text |
| LabeledCompass.AllKeys | app/src/main/java/com/github/naz013/compassapp/view/LabeledCompassView.kt:133 | after 24 turns the loop has put every key |
| LabeledCompass.KeyStep | app/src/main/java/com/github/naz013/compassapp/view/LabeledCompassView.kt:134-135 | turn k of the loop puts the k-th key with its mark |
| LabeledCompass.LabeledCompassView.constructor | app/src/main/java/com/github/naz013/compassapp/view/LabeledCompassView.kt:16-49 | an empty table, no arrow, and the given short-line length and dot radius |
| LabeledCompass.LabeledCompassView.LineCoordinates | app/src/main/java/com/github/naz013/compassapp/view/LabeledCompassView.kt:139-167 | returns the mark of the angle and sets the arrow only when the angle rounds to 0; the table is unchanged |
| LabeledCompass.LabeledCompassView.CalculateLines | app/src/main/java/com/github/naz013/compassapp/view/LabeledCompassView.kt:130-137 | the table becomes exactly `LineTable`, and the arrow is the one built for 0° |
| LabeledCompass.LabeledCompassView.OnDraw | app/src/main/java/com/github/naz013/compassapp/view/LabeledCompassView.kt:59-97 | the first pass over the table's values yields exactly `Marks` and `Texts` in table order |
| SimpleTwoCompass.LineKeys | app/src/main/java/com/github/naz013/compassapp/view/SimpleTwoCompassView.kt:117-121 | the loop's keys are the 12 values k·30 for k = 0 … 11 |
| SimpleTwoCompass.TickLength | app/src/main/java/com/github/naz013/compassapp/view/SimpleTwoCompassView.kt:134-141 | the tick is long or short; the 0° tick is forced short, and any other tick is long exactly when its truncated angle is a multiple of 90 |
| SimpleTwoCompass.GridTickLength | app/src/main/java/com/github/naz013/compassapp/view/SimpleTwoCompassView.kt:128-141 | on the 30° grid the long ticks are exactly those at 90°, 180° and 270° |
| SimpleTwoCompass.Line | app/src/main/java/com/github/naz013/compassapp/view/SimpleTwoCompassView.kt:124-158 | the tick runs from the rim inwards by its tick length, and it is the anchor exactly when the angle rounds to 0 |
| SimpleTwoCompass.LineKeysDistinct | app/src/main/java/com/github/naz013/compassapp/view/SimpleTwoCompassView.kt:117-121 | no key is put twice |
| SimpleTwoCompass.LineTableShape | app/src/main/java/com/github/naz013/compassapp/view/SimpleTwoCompassView.kt:115-122 | the table holds exactly the 12 keys 0, 30, …, 330, in that order, and nothing else; the k-th entry is the tick of k·30° |
| SimpleTwoCompass.LineTableValues | app/src/main/java/com/github/naz013/compassapp/view/SimpleTwoCompassView.kt:119 | every value of the table is the tick of its k·30° |
| SimpleTwoCompass.LineTableValue | app/src/main/java/com/github/naz013/compassapp/view/SimpleTwoCompassView.kt:119 | the k-th value of the table is the tick of k·30° |
| SimpleTwoCompass.LineAtKey | app/src/main/java/com/github/naz013/compassapp/view/SimpleTwoCompassView.kt:119 | the tick put for the k-th key is the tick of k·30° |
| SimpleTwoCompass.TableEntry | app/src/main/java/com/github/naz013/compassapp/view/SimpleTwoCompassView.kt:119 | the k-th value of the table is the tick of the k-th key |
| SimpleTwoCompass.LineTableTicks | app/src/main/java/com/github/naz013/compassapp/view/SimpleTwoCompassView.kt:134-157 | only the 0° entry is the anchor, and the long ticks are exactly those at 90°, 180° and 270° |
| SimpleTwoCompass.StrokesExactly | app/src/main/java/com/github/naz013/compassapp/view/SimpleTwoCompassView.kt:69-80 | every tick that is not the anchor is drawn as its own segment, every segment is such a tick, and arrow strokes appear only for an anchor when an arrow exists |
| SimpleTwoCompass.AllKeys | app/src/main/java/com/github/naz013/compassapp/view/SimpleTwoCompassView.kt:118 | after 12 turns the loop has put every key |
| SimpleTwoCompass.KeyStep | app/src/main/java/com/github/naz013/compassapp/view/SimpleTwoCompassView.kt:119-120 | turn k of the loop puts the k-th key with its tick |
| SimpleTwoCompass.SimpleTwoCompassView.constructor | app/src/main/java/com/github/naz013/compassapp/view/SimpleTwoCompassView.kt:19-48 | an empty table, no arrow, and the given tick lengths |
| SimpleTwoCompass.SimpleTwoCompassView.LineCoordinates | app/src/main/java/com/github/naz013/compassapp/view/SimpleTwoCompassView.kt:124-158 | returns the tick of the angle and sets the arrow only when the angle rounds to 0; the table is unchanged |
| SimpleTwoCompass.SimpleTwoCompassView.CalculateLines | app/src/main/java/com/github/naz013/compassapp/view/SimpleTwoCompassView.kt:115-122 | the table becomes exactly `LineTable`, and the arrow is the one built for 0° |
| SimpleTwoCompass.SimpleTwoCompassView.OnDraw | app/src/main/java/com/github/naz013/compassapp/view/SimpleTwoCompassView.kt:69-80 | the rotated pass over the table's values draws exactly `Strokes`, in table order |
| DottedCompass.DotAngleInjective | app/src/main/java/com/github/naz013/compassapp/view/DottedCompassView.kt:173-186 | two dots share an angle exactly when they have the same index and rings of the same parity |
| DottedCompass.DotAngleRange | app/src/main/java/com/github/naz013/compassapp/view/DottedCompassView.kt:173-186 | every dot angle is in [0, 360), and the odd rings start half a step round |
| DottedCompass.DotCoordinates | app/src/main/java/com/github/naz013/compassapp/view/DottedCompassView.kt:203-213 | the dot keeps its ring and point; its angle is within half a hundredth of the exact angle; it is the anchor exactly on ring 4 at an angle that rounds to 0 |
| DottedCompass.Ring | app/src/main/java/com/github/naz013/compassapp/view/DottedCompassView.kt:184-188 | a ring has 26 dots, the j-th at angle j·(360/26) plus the ring's offset |
| DottedCompass.Grid | app/src/main/java/com/github/naz013/compassapp/view/DottedCompassView.kt:177-200 | the grid has 15 rings, the i-th of radius `minRadius + i·step` |
| DottedCompass.GridAnchor | app/src/main/java/com/github/naz013/compassapp/view/DottedCompassView.kt:186-212 | the grid has exactly one anchor: dot 0 of ring 4 |
| DottedCompass.RingPairs | app/src/main/java/com/github/naz013/compassapp/view/DottedCompassView.kt:185-187 | ring i files its j-th dot under that dot's exact angle |
| DottedCompass.Pairs | app/src/main/java/com/github/naz013/compassapp/view/DottedCompassView.kt:177-197 | n rings file 26·n dots |
| DottedCompass.AddPoint | app/src/main/java/com/github/naz013/compassapp/view/DottedCompassView.kt:189-196 | filing a dot keeps the map well formed |
| DottedCompass.Group | app/src/main/java/com/github/naz013/compassapp/view/DottedCompassView.kt:176-196 | filing into the cleared map gives a well-formed map |
| DottedCompass.PointsAtNone | app/src/main/java/com/github/naz013/compassapp/view/DottedCompassView.kt:189-196 | nothing is filed under an angle that no dot has |
| DottedCompass.GroupKeys | app/src/main/java/com/github/naz013/compassapp/view/DottedCompassView.kt:189-196 | the keys are exactly the angles filed |
| DottedCompass.GroupValues | app/src/main/java/com/github/naz013/compassapp/view/DottedCompassView.kt:189-196 | each entry has its key as its angle and lists exactly the dots filed under it, in filing order |
| DottedCompass.PairPoints | app/src/main/java/com/github/naz013/compassapp/view/DottedCompassView.kt:187-188 | the dots of a filing sequence, one per filing, in order |
| DottedCompass.FlattenIgnores | app/src/main/java/com/github/naz013/compassapp/view/DottedCompassView.kt:189-196 | entries outside the keys do not affect the flattening |
| DottedCompass.FlattenUpdate | app/src/main/java/com/github/naz013/compassapp/view/DottedCompassView.kt:196 | replacing one entry swaps that entry's dots in the flattening |
| DottedCompass.AddPointToKnown | app/src/main/java/com/github/naz013/compassapp/view/DottedCompassView.kt:189-196 | filing under a known angle adds exactly that dot |
| DottedCompass.AddPointToNew | app/src/main/java/com/github/naz013/compassapp/view/DottedCompassView.kt:191-196 | filing under a new angle appends exactly that dot |
| DottedCompass.AddPointKeepsPoints | app/src/main/java/com/github/naz013/compassapp/view/DottedCompassView.kt:189-196 | filing one dot adds exactly that dot to the entries |
| DottedCompass.PairPointsSnoc | app/src/main/java/com/github/naz013/compassapp/view/DottedCompassView.kt:187-188 | one more filing adds exactly its dot to the dots filed |
| DottedCompass.GroupKeepsPoints | app/src/main/java/com/github/naz013/compassapp/view/DottedCompassView.kt:189-196 | filing loses no dot and duplicates none: the entries hold, as a multiset, exactly the dots filed |
| DottedCompass.GroupSnoc | app/src/main/java/com/github/naz013/compassapp/view/DottedCompassView.kt:189-196 | filing one more dot is one more `AddPoint` |
| DottedCompass.PairsFollowGrid | app/src/main/java/com/github/naz013/compassapp/view/DottedCompassView.kt:177-199 | the dots filed by the first n rings are those rings' dots, ring after ring |
| DottedCompass.PairsAreGrid | app/src/main/java/com/github/naz013/compassapp/view/DottedCompassView.kt:177-200 | all filings list the grid's dots ring after ring |
| DottedCompass.AngleMapHoldsGrid | app/src/main/java/com/github/naz013/compassapp/view/DottedCompassView.kt:172-201 | after `calculateDots` the entries hold a permutation of the grid's dots: none lost and none duplicated |
| DottedCompass.AngleMapSize | app/src/main/java/com/github/naz013/compassapp/view/DottedCompassView.kt:189-196 | the entries hold 390 dots in all |
| DottedCompass.AngleMapEntries | app/src/main/java/com/github/naz013/compassapp/view/DottedCompassView.kt:176-196 | after `calculateDots` the keys are exactly the dot angles, and each entry has its key as its angle and lists the dots filed under it |
| DottedCompass.Scan | app/src/main/java/com/github/naz013/compassapp/view/DottedCompassView.kt:160-168 | the least distance found is at most the starting 100 |
| DottedCompass.ScanBound | app/src/main/java/com/github/naz013/compassapp/view/DottedCompassView.kt:162-167 | no key is nearer than the distance found |
| DottedCompass.ScanDefault | app/src/main/java/com/github/naz013/compassapp/view/DottedCompassView.kt:160-161 | while no key is nearer than 100 the angle stays 0 |
| DottedCompass.ScanWitness | app/src/main/java/com/github/naz013/compassapp/view/DottedCompassView.kt:164-166 | a distance below 100 belongs to a key, and the strict `<` makes it the first key that near |
| DottedCompass.ScanNearest | app/src/main/java/com/github/naz013/compassapp/view/DottedCompassView.kt:160-169 | the scan ends on the first key of least distance when that distance is below 100, and on 0 otherwise |
| DottedCompass.ScanSnoc | app/src/main/java/com/github/naz013/compassapp/view/DottedCompassView.kt:163-167 | one more key takes over only when strictly nearer |
| DottedCompass.NearestDegree | app/src/main/java/com/github/naz013/compassapp/view/DottedCompassView.kt:157-170 | an empty map gives 0; if some key is within 100° of the absolute degree, the result is the first key that no key beats; otherwise 0 |
| DottedCompass.NearestIgnoresSign | app/src/main/java/com/github/naz013/compassapp/view/DottedCompassView.kt:159 | the degree counts only through its absolute value |
| DottedCompass.RingAlpha | app/src/main/java/com/github/naz013/compassapp/view/DottedCompassView.kt:95-112 | the alpha is `255 − 15·i`, and for rings 0 … 14 it is in [45, 255] |
| DottedCompass.RingCircles | app/src/main/java/com/github/naz013/compassapp/view/DottedCompassView.kt:96-103 | one circle per dot of the ring, in order |
| DottedCompass.HighlightCircles | app/src/main/java/com/github/naz013/compassapp/view/DottedCompassView.kt:110-115 | one small circle per highlighted dot, in the current colour, with its ring's alpha |
| DottedCompass.GridCirclesStep | app/src/main/java/com/github/naz013/compassapp/view/DottedCompassView.kt:93-95 | ring i is drawn after rings 0 … i−1, with the alpha of ring i |
| DottedCompass.RingCirclesStep | app/src/main/java/com/github/naz013/compassapp/view/DottedCompassView.kt:96-103 | dot j is drawn after dots 0 … j−1 |
| DottedCompass.HighlightStep | app/src/main/java/com/github/naz013/compassapp/view/DottedCompassView.kt:111-115 | highlighted dot k is drawn after dots 0 … k−1 |
| DottedCompass.GridCirclesAlpha | app/src/main/java/com/github/naz013/compassapp/view/DottedCompassView.kt:93-103 | with at most 15 rings every circle of the ring pass has an alpha in [45, 255] |
| DottedCompass.PairsRings | app/src/main/java/com/github/naz013/compassapp/view/DottedCompassView.kt:177-187 | every dot filed by the first n rings belongs to one of them |
| DottedCompass.PointsAtFrom | app/src/main/java/com/github/naz013/compassapp/view/DottedCompassView.kt:195 | a dot listed under an angle was filed under that angle |
| DottedCompass.HighlightAlpha | app/src/main/java/com/github/naz013/compassapp/view/DottedCompassView.kt:106-117 | after `calculateDots` every highlighted circle has an alpha in [45, 255] |
| DottedCompass.FileStep | app/src/main/java/com/github/naz013/compassapp/view/DottedCompassView.kt:185-196 | one turn of the inner loop adds one dot to the ring and one filing |
| DottedCompass.RingStep | app/src/main/java/com/github/naz013/compassapp/view/DottedCompassView.kt:198 | a finished inner loop completes the ring and all its filings |
| DottedCompass.DottedCompassView.constructor | app/src/main/java/com/github/naz013/compassapp/view/DottedCompassView.kt:24-41 | no dots, an empty map, nearest angle 270, degrees 0, white dots, red north, magenta highlight, and a fresh label painter with its initial colours, empty rectangles and text sizes 25 and 15 |
| DottedCompass.DottedCompassView.UpdateColors | app/src/main/java/com/github/naz013/compassapp/view/DottedCompassView.kt:52-58 | the dot, north and highlight colours and the painter's two colours come from the palette; the view's dots, map, angles and the painter's degree, rectangles, bounds and text sizes are unchanged |
| DottedCompass.DottedCompassView.FindNearestDegree | app/src/main/java/com/github/naz013/compassapp/view/DottedCompassView.kt:157-170 | the loop returns exactly `FindNearest` of the keys in iteration order |
| DottedCompass.DottedCompassView.SetDegrees | app/src/main/java/com/github/naz013/compassapp/view/DottedCompassView.kt:60-66 | stores the degree, the nearest angle for it, and the painter's degree; dots, map and colours are unchanged, and so are the painter's colours, rectangles, bounds and text sizes |
| DottedCompass.DottedCompassView.CalculateDots | app/src/main/java/com/github/naz013/compassapp/view/DottedCompassView.kt:172-201 | the nested loops replace `dots` by the 15 × 26 grid and the map by the filing of all its dots into a cleared map |
| DottedCompass.DottedCompassView.GridPass | app/src/main/java/com/github/naz013/compassapp/view/DottedCompassView.kt:93-104 | the ring pass draws exactly `GridCircles`: ring by ring with the ring's alpha, a bigger anchor, and dots at 0° in the north colour |
| DottedCompass.DottedCompassView.HighlightPass | app/src/main/java/com/github/naz013/compassapp/view/DottedCompassView.kt:106-117 | nothing for angle 0 or an angle without an entry; otherwise the entry's dots in the current colour |
| DottedCompass.DottedCompassView.OnDraw | app/src/main/java/com/github/naz013/compassapp/view/DottedCompassView.kt:85-121 | the ring pass, then the highlight, then the label painter's two texts |

## Left out

- The platform orientation numerics are not computed: `getRotationMatrixFromVector`, `getRotationMatrix`, `getOrientation` and `Math.toDegrees`. They are the function parameters of `Orientations`, which yield the raw degree triple.
- The screen rotation (`WindowManager`'s `defaultDisplay.rotation`) is a parameter of each event. The `Surface.ROTATION_*` constants are 0 to 3.
- Sensor registration is only a set of registered sensor kinds. The `SENSOR_DELAY_NORMAL` rate and the sensor manager itself are not modelled.
- `synchronized(this)` and threads: events are handled one at a time.
- Timber logging and the empty `onAccuracyChanged` are not modelled.
- Floating point is not modelled: numbers are exact reals, with no NaN, overflow or rounding error. Map keys are compared exactly, so the model's dot angles are exact multiples of 360/26. The `Float` loop in `calculateDots` may produce keys that differ by rounding, for example in whether two rings share a key.
- The `"%.2f"` round trip is exact half-up rounding to hundredths. The `try`/`catch` fallback to 0 cannot fire on a `Locale.US` format and is not modelled.
- Canvas, Paint and Path are not modelled. Each `onDraw` returns the list of shapes it draws, and Paint state appears only as each shape's colour and alpha. `drawColor`, the canvas rotation by `−90° − degrees`, and the centre line in the current colour are not modelled.
- The cos/sin coordinates are not computed: a point is `Polar(angle, radius)` around the centre.
- The `dp2px` and `TypedValue` lengths are parameters of each view's constructor, except that `DottedCompassView`'s text sizes keep the painter's defaults.
- `getTextBounds` is the `textHeight` parameter. The second pass of `LabeledCompassView.onDraw` is not computed, because it places each text by its measured width and height and by cos/sin.
- `onMeasure` (the centre, the radii and the label box) is not modelled. `calculateLines` and `calculateDots` take their radii as parameters.
- The `palette` property setters, `invalidate()`, and the colour fields of `LabeledCompassView` and `SimpleTwoCompassView` (`updateColors`, `bgColor()` and the like) are not modelled. `DottedCompassView` keeps its colours, as `UpdateColors`.
- `BaseCompassView`, `SimpleOneCompassView`, `MainActivity`, the fragments, `ThemeViewModel`, `Prefs`, `DI`, `CompassApp` and `ExtFunctions` are not part of this model. They cover lifecycle and plumbing. `BaseCompassView.setupText` only copies a square into the painter's bounds before `UpdateBounds`.
- `android.graphics.Rect` is a value here, so the aliasing of a painter's `bounds` object is not captured.
- The `dots` array of arrays is a sequence of sequences.
- `exponentialSmoothing`'s null branch is modelled (`Smoothed` with `None`), but no call reaches it, because the three vectors start as zero arrays.
- CompassSensor.Accepts, CompassSensor.Smoothed and CompassSensor.Compass.OnSensorChanged require that an event carries no more values than the vector it is smoothed into. `exponentialSmoothing` reads `lastValue[i]` for every index of the event's values, so a longer event throws `ArrayIndexOutOfBoundsException` out of `onSensorChanged`. The model does not capture that crash.
- AngleLabel.TopHeight: `TOP_HALF_SIZE` is the exact 0.59, not the `Float` 0.59f (about 0.58999997). So for one visible case, a height of 100, the model's top part is 59 pixels where Kotlin's `(height * 0.59f).toInt()` gives 58.
- `Compass` follows `Compass.kt`. The `Compass.newInstance(this)` and `angle` that `MainActivity` uses do not exist in it, and they are not reconciled.

