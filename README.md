# Function composition snippets, modelled in Dafny

The repository is a set of PHP teaching snippets about function composition.
This project models their logic:

- `compose(a, b)`, the closure `x => a(b(x))`, its associativity, and the two
  arithmetic examples worked out with it (`composition.dfy`, module `Composition`);
- `pipe(value, ...functions)`, an `array_reduce` left fold that applies the
  functions first-listed-first, and the report pipeline of four
  suffix-appending stages (`pipeline.dfy`, module `Pipeline`);
- `composeMiddleware(...$middlewares)`, whose returned closure reassigns the
  request once per middleware in a `foreach` loop (`middleware.dfy`, module
  `Middleware`). The closure is a datatype value holding the captured list
  (PHP's `use` captures by value, and a Dafny value is immutable), and calling
  it is the method `Handle`, whose loop is proved equal to the `Pipe` fold:
  the middlewares are applied in argument order, first listed first.
  Constructing the value evaluates no middleware;
- the `User` / `UserResponse` records and the list stages `$filterActive`, both
  `$simplifyUser` variants, `$sortUsers` and the constant-closure `$processData`
  (`user_stages.dfy`, module `UserStages`).

Functions are total Dafny arrows (`A -> B`), integers are unbounded, and strings
are `seq<char>`.

The script in `func_tut/func_comp_math.php` composes f(x) = 2x, g(x) = x + 3 and
h(x) = x - 5. Both groupings give 16 at the test value 10. The docblock of
the same file works with different functions (x + 2, 3x, x + 5). Those are
modelled separately (`DocF`, `DocG`, `DocH`).

## Model

| member | source | states |
|---|---|---|
| `Composition.Compose` | func_tut/func_comp_math.php:30 | definition of `$compose` (also func_tut/func_comp_associativity_example.php:29): the closure `x => a(b(x))`; building it applies neither function; its laws are `ComposeApplies` and `ComposeAssociative` |
| `Composition.F` | func_tut/func_comp_math.php:25 | definition of the closure `$f`: x * 2 |
| `Composition.G` | func_tut/func_comp_math.php:26 | definition of the closure `$g`: x + 3 |
| `Composition.H` | func_tut/func_comp_math.php:27 | definition of the closure `$h`: x - 5 |
| `Composition.Result1` | func_tut/func_comp_math.php:33-37 | definition of `$result1`: (f ∘ g) ∘ h; its values are stated by `ResultsAgree` |
| `Composition.Result2` | func_tut/func_comp_math.php:34-38 | definition of `$result2`: f ∘ (g ∘ h); its values are stated by `ResultsAgree` |
| `Composition.DocF` | func_tut/func_comp_math.php:10 | definition of the docblock's f: x + 2 |
| `Composition.DocG` | func_tut/func_comp_math.php:11 | definition of the docblock's g: 3x |
| `Composition.DocH` | func_tut/func_comp_math.php:12 | definition of the docblock's h: x + 5 |
| `Composition.ComposeApplies` | func_tut/func_comp_math.php:30 | applying `compose(a, b)` to x gives a(b(x)): the inner function runs first |
| `Composition.ComposeAssociative` | func_tut/func_comp_math.php:4-6 | for any three composable functions, (f ∘ g) ∘ h and f ∘ (g ∘ h) agree on every input, and both are f(g(h(x))) |
| `Composition.ResultsAgree` | func_tut/func_comp_math.php:25-38 | for the script's f, g, h, `$result1` and `$result2` agree on every integer, and both equal 2x - 4 |
| `Composition.ResultsAtTestValue` | func_tut/func_comp_math.php:40-44 | at 10: h(10) = 5, g(5) = 8, f(8) = 16, and both groupings return 16 |
| `Composition.DocInnerCompositions` | func_tut/func_comp_math.php:10-20 | for the docblock functions, (g ∘ h)(x) = 3x + 15 and (f ∘ g)(x) = 3x + 2 |
| `Composition.DocGroupingsAgree` | func_tut/func_comp_math.php:14-21 | for the docblock functions, f ∘ (g ∘ h) and (f ∘ g) ∘ h are both 3x + 17 |
| `Pipeline.Pipe` | func_tut/func_comp_pipe.php:2 | definition of `$pipe`: the `array_reduce` left fold whose carry starts at the seed and is mapped by each function in list order; its laws are the `Pipe*` lemmas below |
| `Pipeline.PipeEmpty` | func_tut/func_comp_pipe.php:2 | with no functions, `pipe` returns the seed unchanged |
| `Pipeline.PipeSingle` | func_tut/func_comp_pipe.php:2 | `pipe(v, f)` is f(v) |
| `Pipeline.PipeConcat` | func_tut/func_comp_pipe.php:2 | piping through `fs + gs` equals piping through `fs` and then the result through `gs` |
| `Pipeline.PipeSnoc` | func_tut/func_comp_pipe.php:2 | the last listed function is applied last, to the result of piping through the others |
| `Pipeline.PipeReversesCompose` | func_tut/func_comp_pipe.php:2 | `pipe(x, g, f)` equals `compose(f, g)(x)`; piping through a list ending in f is f composed after piping through the rest |
| `Pipeline.PipeFour` | func_tut/func_comp_pipe.php:2 | a four-function pipe is d(c(b(a(v)))): the first listed function runs first |
| `Pipeline.FilterActiveUsers` | func_tut/func_comp_pipe.php:4 | definition of the stage `$filterActiveUsers`: appends " - Active Users Filtered" |
| `Pipeline.SortData` | func_tut/func_comp_pipe.php:5 | definition of the stage `$sortData`: appends " - Data Sorted" |
| `Pipeline.FilterBad` | func_tut/func_comp_pipe.php:6 | definition of the stage `$filterBad`: appends " - Bad Data Filtered" |
| `Pipeline.PrepareReport` | func_tut/func_comp_pipe.php:7 | definition of the stage `$prepareReport`: appends " - Report Prepared" |
| `Pipeline.StagesAppendSuffixes` | func_tut/func_comp_pipe.php:4-7 | each of the four stages returns its input followed by its own fixed suffix, for every input |
| `Pipeline.SuffixStageGrows` | func_tut/func_comp_pipe.php:4-7 | a stage that appends a fixed suffix keeps its input as a prefix of its output, and the output is longer by exactly the suffix length |
| `Pipeline.PipeAppendsSuffixes` | func_tut/func_comp_pipe.php:2-7 | piping through suffix-appending stages appends all their suffixes in list order, and the seed is a prefix of the result |
| `Pipeline.ReportPipeline` | func_tut/func_comp_pipe.php:9-14 | the pipeline on 'testingData' yields "testingData - Active Users Filtered - Data Sorted - Bad Data Filtered - Report Prepared" |
| `Middleware.ComposedMiddleware.Handle` | func_tut/func_comp_example.php:33-40 | the closure's loop returns the request mapped by every middleware in argument order, first listed first: the `Pipe` fold of the captured list |
| `Middleware.HandleWithNone` | func_tut/func_comp_example.php:33-40 | a composition of no middlewares returns its request unchanged |
| `Middleware.HandleWithOne` | func_tut/func_comp_example.php:33-39 | a single-middleware composition behaves exactly like that middleware |
| `Middleware.HandleInStages` | func_tut/func_comp_example.php:33-40 | the composition of `ms + ns` gives the same result as the composition of `ns` applied to the result of the composition of `ms` |
| `UserStages.FilterActive` | func_tut/func_comp_associativity_example.php:19 | returns exactly the given users whose `isActive` is true, and never more users than given |
| `UserStages.FilterActiveDistributes` | func_tut/func_comp_associativity_example.php:19 | filtering a concatenation is the concatenation of the filtered parts, so kept users stay in their original order |
| `UserStages.ExampleUsers` | func_tut/func_comp_associativity_example.php:17 | definition of the script's list `$users`: "test" inactive, "test2" active, "test3" inactive |
| `UserStages.ExampleFilter` | func_tut/func_comp_associativity_example.php:17-19 | on the script's list only the user named "test2" is kept |
| `UserStages.SimplifyToResponse` | func_tut/func_comp_associativity_example.php:22 | the response variant keeps the length and each position's name |
| `UserStages.SimplifyUser` | func_tut/func_comp_associativity_example.php:25 | the rebuilding variant returns a list equal to its input |
| `UserStages.FilterSimplifyCommute` | func_tut/func_comp_associativity_example.php:21-25 | with the rebuilding variant, filtering then simplifying equals simplifying then filtering, and both equal filtering alone |
| `UserStages.ResponsesKeepOnlyNames` | func_tut/func_comp_associativity_example.php:22 | two lists with the same names in the same order give the same responses, whatever their `isActive` flags |
| `UserStages.NoStageAfterResponsesFilters` | func_tut/func_comp_associativity_example.php:21-22 | with the response variant the order matters: for every stage run after it, some list is not mapped to its active users |
| `UserStages.SortUsers` | func_tut/func_comp_associativity_example.php:27 | `$sortUsers` returns `usort`'s boolean, which is true, rather than a sorted list |
| `UserStages.ProcessData` | func_tut/func_comp_associativity_example.php:61-70 | `$processData`, the composition of constant closures, returns 'prepareReport' for every input, because its outermost closure ignores its argument |

## Left out

- Printing (`echo`, `print_r`) is display only and is not modelled.
- The composition of function names given as strings (func_tut/func_comp_associativity_example.php:50-59) is not modelled: `$compose` declares `callable` parameters (line 29) and the named functions are never defined, so line 52 would raise a type error. That line is never reached, because the call at line 32 fails first.
- Middleware.ComposedMiddleware.Handle: how many times each middleware is called is not stated; middlewares are pure Dafny functions, so calling one twice cannot be told apart from calling it once. Only the result, the middlewares applied in argument order, is proved.
- Pipeline.Pipe: every function in the list has the same type `T -> T`. PHP's `$pipe` also folds chains whose stages change the value's type (a number turned into a string, then into its length); such chains are not modelled.
- The middleware stubs and the demo call (func_tut/func_comp_example.php:7-30, 43-56): the stubs have empty bodies, and the demo passes an array where a `Request` is required. Middlewares are abstract `T -> T` functions instead.
- The run at func_tut/func_comp_associativity_example.php:31-32 composes `$sortUsers`, which returns a boolean, into `$simplifyUser`, which takes an array; in PHP this is a runtime type error, and in the model the composition does not type-check, so no result is stated for it. For the same reason the other order of the response variant (filtering `UserResponse`s) does not type-check.
- SortUsers: the sorting done by `usort` on its local copy (the comparison by name, its algorithm and stability) is not modelled, since the copy is discarded and only the boolean result leaves the closure.
- FilterActive: `array_filter` keeps the original array keys; the model's sequences renumber positions.
- PHP coercions: `new User("test", 0)` coerces 0 to false (the model uses `bool` directly), and integer overflow to float in the arithmetic examples is not modelled (integers are unbounded).
- Failure propagation through composed chains: all modelled functions are total, so no failure arises.
