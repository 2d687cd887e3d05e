# Array-like values and serial numbers, verified

This project models two small pieces of JavaScript from a collection of
textbook snippets. It proves their behaviour in Dafny.

- `array_like.dfy` (module `ArrayLike`) models `isArrayLike(o)` from
  `part1/chapter7/main.js`. This pure predicate accepts a value only if all
  of these hold:
  - the value is truthy;
  - its `typeof` is `"object"`;
  - its `length` is a finite, non-negative integer below 2^32 − 1.

  JavaScript values are the datatype `Value`. It has undefined, null,
  booleans, strings, numbers, BigInts, and functions and objects with their
  own properties. A number is NaN, +∞, −∞ or a finite `real`. Each JavaScript
  operation the predicate uses is its own function: truthiness, `typeof`,
  property read, `Number.isFinite` and `Number.isInteger`. The property read
  requires a receiver other than undefined and null, because JavaScript
  throws a TypeError there. Dafny's well-formedness check therefore proves
  that the `o &&` guard runs before `length` is read.
- `serial_num.dfy` (module `SerialNum`) models the `serialnum` object from
  `part1/chapter6/main.js`. It is a class, `SerialNumber`, whose field `n` is
  the object's `_n`. `Next` is the `next` getter, which returns the counter
  and then increments it. `SetNext` is the `next` setter, which stores a
  larger value and otherwise reports the thrown error.
  - `Step` describes one access. `Run` and `Issued` replay a sequence of
    accesses.
  - The class's ghost history ties the object to this replay.
  - The lemmas about the replay prove two facts. The counter never goes
    down. The numbers handed out are strictly increasing and never repeat.

## Model

| member | source | states |
|---|---|---|
| ArrayLike.IsArrayLike | part1/chapter7/main.js:44-55 | the six tests run in the order `isArrayLike` makes them, each only after the earlier ones pass; anything accepted is a plain object, never null, a function or a primitive |
| ArrayLike.TypeOf | part1/chapter7/main.js:46 | `typeof` gives "object" exactly for objects and for null |
| ArrayLike.ArrayLikeIffIndexLength | part1/chapter7/main.js:44-55 | a value is array-like if and only if it is an object whose `length` is the number k for some integer 0 <= k < 2^32 − 1 |
| ArrayLike.FalsyRejected | part1/chapter7/main.js:45 | every falsy value is rejected: undefined, null, false, "", 0, NaN and 0n |
| ArrayLike.NonObjectRejected | part1/chapter7/main.js:46 | every value whose `typeof` is not "object" is rejected |
| ArrayLike.FunctionRejected | part1/chapter7/main.js:46 | a function is rejected even when its `length` is a valid index length |
| ArrayLike.NonFiniteLengthRejected | part1/chapter7/main.js:47 | an object is rejected when its `length` is missing, non-numeric, a BigInt, NaN or infinite |
| ArrayLike.NegativeLengthRejected | part1/chapter7/main.js:48 | an object with a negative `length` is rejected |
| ArrayLike.FractionalLengthRejected | part1/chapter7/main.js:49 | an object with a fractional `length` is rejected |
| ArrayLike.TooLongRejected | part1/chapter7/main.js:50 | an object whose `length` is 4294967295 or more is rejected |
| ArrayLike.IndexLengthAccepted | part1/chapter7/main.js:50-53 | every object whose `length` is an integer in [0, 4294967294] is accepted, whatever its other properties |
| ArrayLike.OtherPropertyIrrelevant | part1/chapter7/main.js:47-50 | writing a data property other than `length` of an ordinary object never changes the verdict |
| ArrayLike.Scenario | part1/chapter7/main.js:57-65 | `{"0":"a","1":"b","2":"c",length:3}` is accepted; after `length` is set to 1 it is evaluated again and is still accepted |
| ArrayLike.CommentedVariants | part1/chapter7/main.js:58-61 | `length: 3n`, `new Object()` and `"string"` are rejected; `new Array()` (length 0) is accepted |
| SerialNum.Step | part1/chapter6/main.js:25-29 | one access never lowers the counter; the counter stays put exactly when the access throws; it throws exactly for a write of a value not larger than the counter |
| SerialNum.RunNeverDecreases | part1/chapter6/main.js:25-29 | no sequence of reads and writes lowers the counter |
| SerialNum.IssuedIncreasing | part1/chapter6/main.js:19-29 | the numbers returned by the reads of any sequence of accesses are strictly increasing; each is at least the starting counter and below the final one |
| SerialNum.ConsecutiveReads | part1/chapter6/main.js:25 | two reads in a row return v and v + 1 and leave the counter at v + 2 |
| SerialNum.SerialNumber.constructor | part1/chapter6/main.js:20-23 | the counter starts at 0 with nothing handed out |
| SerialNum.SerialNumber.Next | part1/chapter6/main.js:25 | returns the old counter and leaves the counter one higher; every number handed out so far is strictly increasing and below the new counter |
| SerialNum.SerialNumber.SetNext | part1/chapter6/main.js:27-29 | a larger value is stored; otherwise the outcome is the error "serial number can only be set to a larger value" and the counter is unchanged; the counter never decreases |
| SerialNum.Driver | part1/chapter6/main.js:31-33 | a fresh counter set to 10 stores it without throwing; read twice, it then returns 10 and then 11 |

## Left out

- Numbers are abstract. A finite number is an exact `real`, not an IEEE-754 double. The model therefore covers no rounding and no precision loss.
- Property reads see own properties only. The model has no prototype chain, no getter on `length`, and no Symbol values. The one exception is a string's `length`, which the model gives.
- ArrayLike.Get: gives a string's `length` as its number of Unicode scalar values. JavaScript counts UTF-16 code units, so `"😀".length` is 2 there and 1 here. `isArrayLike` never reads this, because the `typeof` test rejects strings first.
- ArrayLike.OtherPropertyIrrelevant: holds for ordinary objects with data properties only. Arrays are modelled as ordinary objects, so their `length` does not follow index writes. In JavaScript, `a = []; a[4294967294] = "x"` makes `a.length` 4294967295 and turns the verdict to false. Accessor properties with setters are not modelled either.
- In the script at part1/chapter7/main.js:64, the write `a.length = 1` changes an object in place. The model instead rebinds `a` to an updated object value. Aliasing of JavaScript objects is not modelled, and the predicate only reads its argument, so it does not matter here.
- The `console.log` output of both scripts is left out because it is I/O.
- SerialNum.SerialNumber.SetNext: takes an integer. The JavaScript setter accepts any value and compares it with the loose `>`, converting the value first. The model leaves out that conversion. It also leaves out non-integer and infinite writes. For example, `serialnum.next = Infinity` is accepted, and every read after it returns Infinity, so the numbers handed out are no longer strictly increasing.
- SerialNum.SerialNumber.Next: the counter is an unbounded integer. In JavaScript, `_n` is a double. At `_n = 2^53` the getter returns 2^53 and leaves `_n` at 2^53, because 2^53 + 1 rounds back to 2^53, so 2^53 is handed out twice. The strictly increasing numbers proved by SerialNum.IssuedIncreasing and by `Next` therefore hold for the program only below 2^53.
- SerialNum.IssuedIncreasing: proved for an unbounded integer counter. For the JavaScript double counter it holds only while the counter stays below 2^53 and every write is a finite integer (see the lines for `Next` and `SetNext` above).
- Code that is only in comments is left out: the `book` example in part1/chapter6/main.js:1-13, and the table, `some`/`every`, `reduce`, `reduceRight` and string examples in part1/chapter7/main.js:1-42. They illustrate built-in library calls and define nothing. part1/chapter3/main.js is not part of this model because it is comments only.
