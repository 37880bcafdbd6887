# Duration converters of the CryptoZombies test helpers

This project models the `duration` object of the test helpers in `test/helpers/time.js`.
The object has four converters, `seconds`, `minutes`, `hours` and `days`. Each one turns
an amount in its unit into a number of seconds. That number is meant as the argument of
the helper's `increase` function, which passes it on as the `evm_increaseTime` request's
parameter.

Each converter is a Dafny function of the `Duration` module. It calls the next smaller
unit, as the helper does: `Minutes(v) = v * Seconds(60)`, `Hours(v) = v * Minutes(60)`,
`Days(v) = v * Hours(24)`. The functions' contracts give the closed forms (60, 3600 and
86400 seconds per unit). `SecondsPer` is an independent table of seconds per unit.
`Convert` dispatches on a `Unit`, and its contract ties every converter to that table.
The lemmas prove these properties:

- the day/hour/minute/second chain;
- linearity, including over a whole list of amounts;
- non-negativity, monotonicity and injectivity.

The `DurationBreakdown` module adds the inverse of the converters. `Split` writes a
number of seconds as days, hours, minutes and seconds, and `Compose` sums such a
breakdown through the converters. The two functions are mutual inverses on normalised
breakdowns.

## Model

| member | source | states |
|---|---|---|
| Duration.Seconds | test/helpers/time.js:53-55 | `seconds(v)` returns `v` unchanged |
| Duration.Minutes | test/helpers/time.js:56-58 | `minutes(v)` is `60 * v`, the same as `seconds(60 * v)` |
| Duration.Hours | test/helpers/time.js:59-61 | `hours(v)` is `3600 * v`, the same as `minutes(60 * v)` |
| Duration.Days | test/helpers/time.js:62-64 | `days(v)` is `86400 * v`, the same as `hours(24 * v)` |
| Duration.OneDayChain | test/helpers/time.js:53-64 | `days(1)` is 86400 seconds, as the comment at line 38 says, and equals `hours(24)`, `minutes(1440)` and `seconds(86400)` |
| Duration.Convert | test/helpers/time.js:52-65 | each converter multiplies its amount by the reference number of seconds in its unit (1, 60, 3600, 86400) |
| Duration.ConvertLinear | test/helpers/time.js:53-64 | every converter maps 0 to 0 and is additive (and subtractive) |
| Duration.ConvertMonotone | test/helpers/time.js:53-64 | every converter keeps non-negative amounts non-negative, preserves `<=` and `<` in both directions, and is injective |
| Duration.ConvertGrowsWithUnit | test/helpers/time.js:53-64 | a non-negative amount of a larger unit is never fewer seconds than the same amount of a smaller unit |
| Duration.ConvertAll | test/helpers/time.js:52-65 | converting a list of amounts converts it element by element and keeps the length |
| Duration.ConvertSum | test/helpers/time.js:52-65 | the converted amounts of a list sum to the converted total of the list |
| DurationBreakdown.Compose | test/helpers/time.js:53-64 | a days/hours/minutes/seconds breakdown summed through the converters is `86400*d + 3600*h + 60*m + s` |
| DurationBreakdown.Split | test/helpers/time.js:52-65 | any number of seconds splits into a normalised breakdown (hours < 24, minutes and seconds < 60) that composes back to it |
| DurationBreakdown.SplitCompose | test/helpers/time.js:52-65 | splitting a composed normalised breakdown gives that breakdown back |
| DurationBreakdown.SplitInjective | test/helpers/time.js:52-65 | two numbers of seconds have the same breakdown exactly when they are equal |

## Left out

- `increase` (test/helpers/time.js:4-50) is not modelled. It sends the `evm_increaseTime` and `evm_mine` JSON-RPC requests to an external node through callbacks and a Promise, and it ignores both callbacks' errors. This is I/O and asynchronous sequencing.
- The request ids built from `new Date().getTime()` are not modelled, because they are wall-clock reads.
- JavaScript number semantics are not modelled. Amounts are unbounded integers here. Fractional amounts, the loss of precision above 2^53, and a converter called without `this` bound to `duration` are outside the model.
- `shouldThrow` (test/helpers/utils.js:7-15) is not modelled. It is assertion glue over a Promise and the test framework.
- test/CryptoZombies.js is not modelled. It creates a zombie through a compiled contract whose source is not part of this model, and checks only the transaction receipt's status and the name in the creation event.
- migrations/2_crypto_zombies.js is not modelled, because it only calls the deployment framework.
- migrations/bak/zombie-web3.js is not modelled, because it is DOM, HTTP and contract-event wiring.
