# Advent of Code 2019 solutions, modelled in Dafny

This project models the parts of the Rust Advent of Code 2019 solutions that have real logic, and proves properties of that model:

- **Intcode interpreter** (`src/intcode.rs`, copied line for line in `src/day02.rs`). A `Program` holds integer memory and a head. `step` decodes the four cells at the head as an opcode, two operand addresses and a destination address. Opcode 1 adds and opcode 2 multiplies the cells the operands point to, stores the result at the destination and moves the head by four. Opcode 99 stops the machine without touching it. So does any access out of bounds: an operand read, a destination address read, or the destination write itself. Any other opcode panics. `run` steps until the machine stops.
- **Fuel** (`src/day01.rs`). The fuel for a mass is a third of it minus two when that is positive. The total fuel adds the fuel for the fuel, again and again, until nothing more is needed.
- **Passwords** (`src/day04.rs`). A number's decimal digits are checked for order and for an adjacent equal pair.
- **Wire tracks** (`src/day03.rs`).
  - Turn tokens such as `R8` are parsed.
  - Points move on an integer grid, and a vector's unit steps are walked.
  - Tracks map points to plots. Merging two tracks turns every shared point into an intersection.
  - The model also covers Manhattan distance and the bounding box of a track.

Layout:

| file | module | models |
|---|---|---|
| `wrappers.dfy` | `Wrappers` | `Option` and `Result` |
| `text.dfy` | `Text` | decimal numerals, `str::parse` for `usize` and `i16`, and `str::split` on one character |
| `intcode.dfy` | `Intcode` | the interpreter |
| `fuel.dfy` | `Fuel` | day 1 |
| `password.dfy` | `Password` | day 4 |
| `wires.dfy` | `Wires` | day 3 |

### How the state is modelled

- **`Intcode.Program`** is a class. It keeps the memory in an `array<nat>` that `Step` overwrites in place, and a `head` field.
  - Each method is proved against a pure function of the state `Machine(data, head)`.
  - `Advance` is one step. Its `Signal` is `Continue` (Rust's `Some(())`), `Stop` (`None`: a halt or an out-of-bounds access, the destination write included) or `Panic(opcode)` (`unreachable!`).
  - `Execute(m, fuel)` is at most `fuel` steps. Its outcome is `Stopped`, `Panicked` or `OutOfFuel`.
- **`Password.Digits`** is a class. It holds the digit list and the iterator's `index`.
- **Wire tracks.** `Wires.VectorPoints` is a class with the collected points and the iteration index. `Wires.WireTrack` is a class whose `plots` map its methods update.
  - The pure specifications are the functions on map values: `Merge`, `VectorTrack`, `Lay` and `Wire`.

## Model

| member | source | states |
|---|---|---|
| Intcode.DecodeOpCode | src/intcode.rs:88-96 | decoding succeeds exactly for 1, 2 and 99, and the decoded opcode's code is the input |
| Intcode.DecodeCode | src/day02.rs:112-121 | decoding the code of any opcode gives that opcode back |
| Intcode.Output | src/intcode.rs:62-70 | no value exactly for `Halt`, so a halt stops the step before anything is written. The values written are stated by `StepAdd` and `StepMul` |
| Intcode.CommandFrom | src/day02.rs:96-104 | the command is built positionally: opcode from the first cell, inputs from the second and third; it fails exactly when the first cell is not an opcode |
| Intcode.Advance | src/intcode.rs:10-23 | a step panics exactly when the head is in range and its cell is not an opcode. It continues exactly when the cell is 1 or 2 and the three operand cells and the cells they address are in range. A step that does not continue leaves memory and head unchanged. One that continues keeps the length, moves the head by four and changes no cell except the destination |
| Intcode.StepAdd | src/intcode.rs:10-23 | `output` of `Add` inside `step`: with opcode 1 and operands in range, the destination gets the sum of the two addressed cells and the head moves by four |
| Intcode.StepMul | src/day02.rs:34-47 | `output` of `Mul` inside `step`: with opcode 2 and operands in range, the destination gets the product of the two addressed cells and the head moves by four |
| Intcode.Halts | src/intcode.rs:10-23 | opcode 99 at the head stops the step with nothing changed, whether the stop comes from `Halt` or from an operand address out of range |
| Intcode.Execute | src/intcode.rs:25-29 | a run keeps the memory length. A run that stopped ends in a state where a step stops; a panic names the opcode found at the final head |
| Intcode.RunAgain | src/intcode.rs:25-29 | running an already stopped machine again gives the same result |
| Intcode.MoreFuel | src/intcode.rs:25-29 | once a run finishes within some number of steps, allowing more steps changes nothing |
| Intcode.ExecuteUnfold | src/intcode.rs:25-29 | a run with budget left is one `step` followed by the rest of the run, or ends at once on a stop or a panic |
| Intcode.ExecuteSplit | src/intcode.rs:25-29 | running a+b steps is running a steps, then b more from where the first run left off |
| Intcode.EndsWithin | src/intcode.rs:10-29 | the head only moves forward by four and memory never grows, so a run ends within any budget whose steps of four carry the head past the end |
| Intcode.RunEnds | src/intcode.rs:25-29 | `run` always ends, in a stop or a panic: a budget larger than the memory size always ends in a stop or a panic, never by running out |
| Intcode.FirstSteps | src/intcode.rs:99-112 | on `1,9,10,3,2,3,11,0,99,30,40,50`, the first step writes 70 at index 3, the second writes 3500 at index 0, and the run then stops |
| Intcode.LoneHalt | src/intcode.rs:10-29 | illustrative, not taken from the source's tests: the program `99` stops at once with memory and head unchanged |
| Intcode.AddZeros | src/intcode.rs:10-29 | illustrative: `1,0,0,0,99` ends as `2,0,0,0,99` |
| Intcode.MulThree | src/intcode.rs:10-29 | illustrative: `2,3,0,3,99` ends as `2,3,0,6,99` |
| Intcode.TwoSteps | src/intcode.rs:10-29 | illustrative: `1,1,1,4,99,5,6,0,99` ends as `30,1,1,4,2,5,6,0,99` after an add that turns the 99 into a multiply |
| Intcode.StopsAndPanics | src/intcode.rs:10-23 | running off the end of memory stops; opcode 7 panics with memory untouched; an out-of-range operand stops before any write |
| Intcode.KeepNumbers | src/intcode.rs:43-54 | keeping the tokens that parse as `usize` yields no more values than tokens, each at most 2^64-1 |
| Intcode.KeepNumbersSingle | src/intcode.rs:46 | one token is kept exactly when `parse::<usize>` accepts it, as the value it parses to |
| Intcode.KeepNumbersAppend | src/intcode.rs:46 | the filter works token by token: filtering a concatenation concatenates the filtered parts |
| Intcode.KeepNumbersOfNumerals | src/intcode.rs:46 | the numerals of values up to 2^64-1 all survive the filter, giving the values back in order |
| Intcode.TrailingNewline | src/intcode.rs:43-54 | text that ends in a newline loses its last cell: `1,99\n` loads as `1` |
| Intcode.SplitTwo | src/intcode.rs:45 | `1,99\n` splits into `1` and `99\n` |
| Intcode.KeepOneOfTwo | src/intcode.rs:46 | of `1` and `99\n` only `1` survives the filter |
| Intcode.LoadRender | src/intcode.rs:43-54 | loading the comma-joined numerals of a non-empty memory gives that memory back |
| Intcode.Load | src/intcode.rs:45-47 | the loaded cells are each at most 2^64-1 |
| Intcode.LoadOneToken | src/intcode.rs:45-47 | text without a comma is a single token, so it loads as the one cell it parses to, or as nothing |
| Intcode.Program.FromText | src/intcode.rs:43-54 | `From<String>`: a fresh memory array holding the loaded cells, with the head at 0 |
| Intcode.Program.Step | src/intcode.rs:10-23 | the step updates the memory array in place and the head. Its signal and new state are exactly those of `Advance` on the old state |
| Intcode.Program.Run | src/intcode.rs:25-29 | the loop's outcome and final state are exactly those of `Execute` with the same fuel. With more fuel than memory cells it always stops or panics |
| Intcode.Program.First | src/intcode.rs:31-33 | returns memory cell 0. It needs a non-empty memory, where the source's `unwrap` would panic |
| Intcode.Program.ChangeValues | src/intcode.rs:35-40 | writes x at index 1 and y at index 2. Every other cell and the head stay as they were. It needs at least three cells, as the source's indexing does |
| Fuel.TruncDiv | src/day01.rs:25-33 | Rust's `/` truncates toward zero for every sign. The remainder is smaller than the divisor and is zero or has the dividend's sign; on non-negative operands this agrees with Dafny's division |
| Fuel.TruncDivExamples | src/day01.rs:25-33 | truncation and Euclidean division part ways on negative operands: -7 / 3 truncates to -2, not -3 |
| Fuel.CalcFuel | src/day01.rs:25-33 | a value exactly when mass >= 9 (when mass/3 - 2 is positive). That value is mass/3 - 2, strictly between 0 and the mass |
| Fuel.TotalFuel | src/day01.rs:35-47 | the total is at least the first fuel (or 0), is 0 below mass 9 and is less than any positive mass |
| Fuel.CalcTotalFuel | src/day01.rs:35-47 | the loop's sum equals the recursive total (0 when no fuel is needed, otherwise c plus the total for c) |
| Fuel.TotalFor1969 | src/day01.rs:49-52 | the total for 1969 is 966 |
| Password.Value | src/day04.rs:83-95 | digits have values 0 to 9 |
| Password.Less | src/day04.rs:83 | the derived `<` on digits is a strict total order: no digit is below itself, and of two different digits exactly one is below the other |
| Password.ValueInjective | src/day04.rs:83-95 | distinct digits have distinct values, so the derived ordering is the numeric one |
| Password.DigitFromChar | src/day04.rs:97-113 | a digit exactly for '0' to '9' (any other character is the panic), with the character's value |
| Password.DigitFromCharOfValue | src/day04.rs:97-113 | the numeral of a digit's value converts back to that digit |
| Password.DigitsOfText | src/day04.rs:70-81 | digits for a string exactly when every character is a digit, one per character with matching value |
| Password.NumberOfText | src/day04.rs:70-81 | the digits of a numeral denote the numeral's value |
| Password.DigitsOf | src/day04.rs:70-81 | `From<i32>`: digits exactly for i >= 0 (the '-' of a negative number panics). They are at least one digit, denote i, and start with Zero only for 0 |
| Password.DigitsOfChars | src/day04.rs:70-81 | converting the characters of a digit list gives the list back |
| Password.NatToStringOfNumber | src/day04.rs:70-81 | a digit list with no leading zero is the decimal numeral of the number it denotes |
| Password.DigitsOfNumber | src/day04.rs:70-81 | the digits of the number a digit list without a leading zero denotes are that list, most significant first |
| Password.AscendingFromNeighbours | src/day04.rs:24-35 | when every digit is at most its successor, the whole list is in order |
| Password.Digits.FromInt | src/day04.rs:70-81 | `From<i32>`: the digits are the decimal digits of i, most significant first, and the index is 0 |
| Password.Digits.IsPossiblePwd | src/day04.rs:20-22 | true exactly when `non_decreasing` and `has_double` both hold |
| Password.Digits.NonDecreasing | src/day04.rs:24-35 | as written: true exactly when no digit is less than its successor |
| Password.Digits.HasDouble | src/day04.rs:37-48 | true exactly when some digit equals its successor |
| Password.Digits.NeverDecreases | src/day04.rs:24-35 | corrected: true exactly when the digits are in non-decreasing order |
| Password.Digits.IsValidPassword | src/day04.rs:20-22 | corrected: ordered digits with an adjacent pair |
| Password.Digits.Next | src/day04.rs:58-68 | yields the digit at the index and advances, or `None` once the index reaches the length. The index never passes the length |
| Password.NumberSnoc | src/day04.rs:70-81 | appending a digit multiplies by ten and adds its value |
| Password.NumberOfSix | src/day04.rs:70-81 | the number six digits denote |
| Password.Test111111 | src/day04.rs:51-56 | 111111 is accepted |
| Password.Test223450 | src/day04.rs:51-56 | 223450 is rejected by the order check |
| Password.Test123789 | src/day04.rs:51-56 | 123789 fails both the order check as written and the pair check |
| Password.NonDecreasingRejects123345 | src/day04.rs:24-35 | 123345 is ordered with a pair, yet the order check as written rejects it |
| Password.NonDecreasingAccepts654431 | src/day04.rs:24-35 | 654431 is accepted by the order check as written though its digits fall |
| Text.DigitChar | src/day04.rs:97-113 | the numeral of 0 to 9 is a digit character with that value |
| Text.NatToString | src/day04.rs:72 | a decimal numeral is non-empty, all digits, and starts with '0' only for 0 |
| Text.IntToString | src/day04.rs:72 | a signed numeral starts with '-' exactly for negative numbers, and every other character is a digit |
| Text.ValueOfNatToString | src/intcode.rs:43-54 | the value of a number's numeral is the number |
| Text.ParseUnsigned | src/intcode.rs:46 | `parse::<usize>`: a value exactly when, after an optional leading '+', the rest is one or more decimal digits whose value is at most the maximum. That value is the result. So the empty string, a lone '+', a '-', a blank or a newline fail |
| Text.ParseSigned | src/day03.rs:353-373 | `parse::<i16>`: a value exactly when, after an optional '+' or '-', the rest is one or more decimal digits and the signed value lies within the bounds. The result is the digits' value, negated after a '-' |
| Text.ParseExamples | src/intcode.rs:46 | `99\n` and ` 1` fail, while `+5` gives 5 and `007` gives 7 as `usize`. As `i16`, `-5` and `+5` parse and `5\n` fails |
| Text.ParseUnsignedOfNatToString | src/intcode.rs:46 | the numeral of a value in range parses back to it |
| Text.ParseSignedOfIntToString | src/day03.rs:353-373 | the numeral of a value in range parses back to it |
| Text.Split | src/intcode.rs:45-46 | splitting gives at least one piece, and no piece holds the separator |
| Text.SplitOfPiece | src/day03.rs:128-129 | a piece without the separator splits into itself, and a leading piece is split off first |
| Text.SplitJoin | src/intcode.rs:45-46 | splitting pieces joined by the separator (none containing it) gives the pieces back |
| Wires.Distance | src/day03.rs:379-383 | the Manhattan distance is 0 exactly between equal points |
| Wires.DistanceSymmetric | src/day03.rs:379-383 | the distance is symmetric |
| Wires.DistanceTriangle | src/day03.rs:379-383 | the distance obeys the triangle inequality |
| Wires.VectorDistance | src/day03.rs:385-389 | the distance between vectors is 0 exactly when their starts coincide |
| Wires.Move | src/day03.rs:169-188 | a turn moves a point by its distance, leaving y alone for Left/Right and x alone for Up/Down. A forward move goes to smaller x for Left, larger x for Right, smaller y for Up and larger y for Down |
| Wires.MoveAdditive | src/day03.rs:169-188 | two moves in one direction add up |
| Wires.MoveBack | src/day03.rs:169-188 | the opposite direction undoes a move |
| Wires.MoveInjective | src/day03.rs:169-188 | moving one way by two distances reaches the same point only when the distances agree |
| Wires.VectorEndTests | src/day03.rs:286-311 | from the origin, five steps Right, Left, Up and Down end at (5,0), (-5,0), (0,-5) and (0,5) |
| Wires.Len | src/day03.rs:230-232 | `Vector::len`: the end lies as far from the start as the length's magnitude |
| Wires.End | src/day03.rs:234-236 | a vector's end lies its distance away from its start |
| Wires.Segment | src/day03.rs:264-284 | the points along a vector: one per unit of its length, the start excluded, the last one its end, the k-th one k+1 away from the start. So a length that is not negative is how many unit steps lead from start to end, which is what `into_iter` counts |
| Wires.SegmentUnitSteps | src/day03.rs:272-276 | each point is one step in the vector's direction from the one before it (the first from the start) |
| Wires.WalkSegment | src/day03.rs:264-276 | the stepping loop collects exactly the segment's points and counts them |
| Wires.VectorPoints.constructor | src/day03.rs:278-283 | the iterator holds the points and their count, with the index at 0 |
| Wires.VectorPoints.Next | src/day03.rs:251-258 | yields the point at the index and advances, or `None` once the index reaches the length |
| Wires.IntoIter | src/day03.rs:261-284 | a fresh iterator over the segment's points, at its start (`points` calls this too) |
| Wires.PlotFor | src/day03.rs:145-148 | a vector draws `Horiz` exactly when it goes left or right, and `Vert` otherwise |
| Wires.Merge | src/day03.rs:38-46 | the merged keys are the union. A shared point becomes `Intersect`, and any other keeps the plot of the track it comes from |
| Wires.MergeInsert | src/day03.rs:39-44 | merging one more point of the second track marks it `Intersect` when the first already has it, and otherwise copies its plot |
| Wires.Paint | src/day03.rs:151-153 | painting a plot over points covers exactly the base and the points, gives every painted point the plot and leaves the rest of the base alone |
| Wires.PaintSnoc | src/day03.rs:151-153 | painting one more point is one more insertion |
| Wires.VectorTrack | src/day03.rs:141-156 | a vector's track holds the origin and the segment's points and nothing else. Segment points are `Horiz` for Left/Right and `Vert` for Up/Down, and the origin stays `Start` unless the segment covers it |
| Wires.DrawVector | src/day03.rs:141-156 | the insertion loop over the iterator builds exactly the vector's track |
| Wires.DirectionOf | src/day03.rs:361-367 | a direction exactly for L, R, U and D, and the direction's letter is the character read |
| Wires.ParseTurn | src/day03.rs:353-373 | a turn exactly when the first character is L, R, U or D and the rest parses as an `i16`, with that direction and distance. The empty string is a distance error, since the distance is parsed first |
| Wires.ParseTurnText | src/day03.rs:353-373 | a turn's letter followed by its `i16` distance in decimal parses back to the turn |
| Wires.KeepTurns | src/day03.rs:128-129 | keeping the tokens that parse as turns yields no more turns than tokens, each with a distance in the `i16` range |
| Wires.Turns | src/day03.rs:128-129 | the turns of a wire's text have distances in the `i16` range |
| Wires.TurnsOneToken | src/day03.rs:128-129 | text without a comma is a single token: the one turn it parses to, or none |
| Wires.KeepTurnsAppend | src/day03.rs:128-129 | the filter works token by token: filtering a concatenation concatenates the filtered parts |
| Wires.KeepTurnsSingle | src/day03.rs:128-129 | a single token is kept exactly when `Turn::try_from` accepts it, as the turn it parses to |
| Wires.TurnTexts | src/day03.rs:353-373 | the tokens of a list of turns, one per turn |
| Wires.KeepTurnsOfTexts | src/day03.rs:128-129 | the tokens of turns in the `i16` range all survive the filter, giving the turns back in order |
| Wires.TurnTextNoComma | src/day03.rs:128 | a turn's token holds no comma |
| Wires.TurnsOfText | src/day03.rs:123-139 | the comma-joined tokens of a non-empty list of turns in range give back exactly those turns |
| Wires.Lay | src/day03.rs:126-137 | laying turns never loses the origin, and once any turn is laid over a track holding the origin, the origin is an intersection |
| Wires.Wire | src/day03.rs:126-137 | a wire's track holds the origin, and with no valid turn it is the new track: the origin alone, as `Start` |
| Wires.LayFirst | src/day03.rs:130-135 | laying out turns is laying the first vector from the current point, then the rest from its end |
| Wires.LayStep | src/day03.rs:130-135 | one turn of the layout loop: lay the vector of turn i, then carry on from its end |
| Wires.LayKeeps | src/day03.rs:130-135 | laying out never drops a point of the track built so far |
| Wires.LayKeepsIntersect | src/day03.rs:130-135 | an origin that is already an intersection stays one |
| Wires.WireOrigin | src/day03.rs:123-139 | a wire's track holds the origin. It is `Start` when no token parses and `Intersect` after any valid turn, since every vector's track holds the origin |
| Wires.LayReaches | src/day03.rs:130-135 | each vector starts where the previous one ended, so the wire's final point is on its track |
| Wires.MinBy | src/day03.rs:48-53 | `min_by` on a coordinate returns a point of the set whose coordinate is least |
| Wires.MaxBy | src/day03.rs:69-74 | `max_by` on a coordinate returns a point of the set whose coordinate is greatest |
| Wires.WireTrack.constructor | src/day03.rs:25-36 | `new`: the track holding just the origin as `Start` |
| Wires.WireTrack.FromVector | src/day03.rs:141-156 | a track whose plots are the vector's track |
| Wires.WireTrack.Concat | src/day03.rs:38-46 | the new plots are the merge of the old plots with the other track's, and the track still holds the origin |
| Wires.WireTrack.LeftEdge | src/day03.rs:48-53 | `left`: an x some point has, no point has a smaller one, and at most 0 because the origin is on every track |
| Wires.WireTrack.TopEdge | src/day03.rs:55-60 | `top`: the least y, attained and at most 0 |
| Wires.WireTrack.RightEdge | src/day03.rs:76-81 | `right`: the greatest x, attained and at least 0 |
| Wires.WireTrack.BottomEdge | src/day03.rs:69-74 | `bot`: the greatest y, attained and at least 0 |
| Wires.WireTrack.TopLeft | src/day03.rs:62-67 | a corner no point lies above or left of, each coordinate attained |
| Wires.WireTrack.BottomRight | src/day03.rs:83-88 | a corner no point lies below or right of, each coordinate attained |
| Wires.ParseWire | src/day03.rs:123-139 | `TryFrom<&str>`: a fresh track whose plots are the wire's layout from the origin of every turn that parses, merged in order |

## Left out

- The `main` functions of every day, including the day 2 noun/verb search. They read input files and print; I/O is outside the model. The same goes for `src/main.rs`, `src/cli.rs`, `src/lib.rs` (printing and error macros) and the `src/day05.rs` stub.
- `fmt::Display` for `WireTrack` and `Plot`: text rendering only.
- `Point::new`, `Turn::new` and `Vector::new` are the datatype constructors `Point`, `Turn` and `Vector`.
- `Point`'s `Add` and `Sub`: nothing in the core calls them.
- Intcode.Program.Step, Intcode.Execute: memory is unbounded `nat`, so `usize` overflow in an add or a multiply (a panic in debug builds, wrap-around in release) is not modelled. `Execute` and `Run` bound the number of steps with fuel. The source's `run` loop has no explicit bound but always ends, by stopping or panicking (`RunEnds`), so fuel larger than the memory size loses nothing.
- Wires.Move, Wires.Distance: coordinates and distances are unbounded `int` rather than `i16`, so overflow is not modelled. Parsed distances do lie in the `i16` range.
- Fuel.CalcFuel, Fuel.CalcTotalFuel: the mass is an unbounded `int` rather than `isize`.
- Wires.IntoIter, Wires.WireTrack.FromVector, Wires.ParseWire: they require distances that are not negative, which `parse::<i16>` accepts (`R-5`). With a negative distance the source's loop walks away from the end until the `i16` coordinate overflows: a debug build panics, a release build wraps around and reaches the end after tens of thousands of steps. Neither is modelled.
- Intcode.Program.FromText: loading is proved through the round trip `LoadRender` and on memory values. The `first_steps` test is stated on the memory it loads, not on its text.
- Wires.ParseWire: the `wire_track` test only prints its track, so there is nothing to state about it.
- Panics are modelled as error results or as preconditions, not as process aborts:
  - the bad opcode is a `Panic` signal;
  - the non-digit character gives `None` digits;
  - the `unwrap` of `first` on empty memory is a precondition;
  - the `expect` on an empty track is a precondition, met by every track.
- `Turn::try_from` does not panic: it returns `Err`, modelled as `TurnError`.
- Rust's `str::parse` is modelled for ASCII decimal text with an optional sign. Rust's exact error kinds are not distinguished.

## Findings

| source | as written | input that shows it | evidently intended | confidence | as-written member | corrected member |
|---|---|---|---|---|---|---|
| src/day04.rs:24-35 | `non_decreasing` returns false as soon as a digit is less than its successor, so it accepts digit lists that never rise and rejects rising ones | 123345 (ordered, has a pair) is rejected; 654431 is accepted | true exactly when every digit is at most its successor, as the function's name and the puzzle state | not executed | Password.NonDecreasingRejects123345 | Password.Digits.NeverDecreases |

`Password.Digits.NonDecreasing` and `Password.Digits.IsPossiblePwd` follow the code as written. `Password.Digits.NeverDecreases` and `Password.Digits.IsValidPassword` are the corrected checks, proved against the all-pairs order `Ascending`.
