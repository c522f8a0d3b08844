# Zephir: the PropertyArray fixture and the `explode` optimiser

This project models two small parts of the Zephir compiler repository in Dafny and proves properties of them.

**The `Test\Properties\PropertyArray` fixture class** (`ext/test/properties/propertyarray.zep.c`, generated C for PHP 7). The class has three properties. All three are declared NULL. The object-creation hook gives each property that is still NULL a default: `otherArray = []`, `someArray = [1,2,3,4]`, `someEmptyArray = []`. The constructor then sets `someArray` to `[1]`. `setOtherArray` and `getOtherArray` write and read `otherArray`.

`testIssues1831` runs a `while (1)` loop. Each pass does `array_shift` on `otherArray` and tests the removed value with `stripos(value, "header") !== false`. A value that passes is appended to the returned `headers`. The first value that fails is put back with `array_unshift`, and the loop stops. The model is the class `PropertyArrayFixture.PropertyArray`. Its fields hold PHP values (`PhpValues.Value`), and its methods reassign them. `TestIssues1831` is a `while true` loop with invariants and a decreasing measure. It is proved against the function `Issue1831`.

**`ExplodeOptimizer::optimize`** (`Library/Optimizers/FunctionCall/ExplodeOptimizer.php`). Given the argument list of an `explode(...)` call, it does one of three things:

- it declines (no parameter list);
- it raises a compiler error (fewer than two arguments, or a result symbol for which `isNotVariableAndString()` holds);
- it prints a call to `zephir_fast_explode_str` (when the delimiter is a string literal) or to `zephir_fast_explode`.

`ExplodeOptimizer.Decide` states the outcome as a table over the arguments. `ExplodeOptimizer.Optimize` follows the PHP step by step. It keeps the parameter list as a PHP list whose slots are unset. It reassigns `limit` and `limitOffset`. It indexes the resolved parameters. `Optimize` is proved equal to `Decide`.

The proofs show where the limit comes from:

- two arguments: `LONG_MAX`;
- three arguments, the third an `int` literal: that literal;
- three arguments, the third anything else: `zephir_get_intval(<third>)`;
- four or more arguments: `zephir_get_intval` of the third argument, except after a literal delimiter, where it is the fourth. The third argument is then dropped.

PHP's `explode` takes at most three arguments, so the last case only arises for calls that are wrong anyway.

Edge cases:

- An empty `otherArray` is not an error. `array_shift` on an empty array returns NULL. `stripos(NULL, "header")` is `false`, so the NULL is put back. The routine returns `[]` and leaves `otherArray == [NULL]`. When every element passes, all of them are returned, and `otherArray` again ends as `[NULL]`.
- The loop runs once per leading match, plus one final pass.
- `Content-Type` contains no `header`, so from `["X-Header: 1", "Content-Type: text", …]` only the first line is returned.

PHP 7 semantics are assumed throughout, as in the generated code (`TSRMLS_CC`). A built-in that rejects an argument's type warns and returns NULL, and leaves a by-reference argument unchanged. So `stripos` on an array element returns NULL. NULL `!== false`, so **an array element counts as a "header"** (`ArrayElementMatches`). If `otherArray` is not an array, shift and unshift leave it as it is, and the routine returns `[]`.

## Model

| member | source | states |
|---|---|---|
| `PropertyArrayFixture.PropertyArray.constructor` | ext/test/properties/propertyarray.zep.c:32-187 | A new object has `someEmptyArray == []`, `otherArray == []` and `someArray == [1]`: the properties are declared NULL (lines 32-42), the create-object hook defaults them (lines 141-187), then `__construct` overrides `someArray` (lines 60-65). |
| `PropertyArrayFixture.PropertyArray.InitProperties` | ext/test/properties/propertyarray.zep.c:158-187 | Each property that is NULL gets its default (`[]`, `[1,2,3,4]`, `[]`); a property that is not NULL keeps its value. |
| `PropertyArrayFixture.PropertyArray.Construct` | ext/test/properties/propertyarray.zep.c:60-65 | `someArray` becomes `[1]`; `otherArray` and `someEmptyArray` are unchanged. |
| `PropertyArrayFixture.PropertyArray.SetOtherArray` | ext/test/properties/propertyarray.zep.c:77-81 | `otherArray` becomes the argument; the other two properties are unchanged. |
| `PropertyArrayFixture.PropertyArray.GetOtherArray` | ext/test/properties/propertyarray.zep.c:90 | Returns the current value of `otherArray`. |
| `PropertyArrayFixture.SetThenGet` | ext/test/properties/propertyarray.zep.c:70-92 | `getOtherArray()` after `setOtherArray(a)` returns `a`, and `someArray` and `someEmptyArray` are untouched. |
| `PropertyArrayFixture.PropertyArray.TestIssues1831` | ext/test/properties/propertyarray.zep.c:110-137 | The loop terminates. It returns the headers and leaves `otherArray` exactly as `Issue1831(old otherArray)` says. It changes only `otherArray`. |
| `PropertyArrayFixture.LeadingRun` | ext/test/properties/propertyarray.zep.c:112-127 | The result is a prefix of the input. Every element of it passes the test. The element right after it, if any, fails. |
| `PropertyArrayFixture.LeadingRunUnique` | ext/test/properties/propertyarray.zep.c:112-134 | A length `n` is the length of the leading run if and only if the first `n` elements all pass and element `n` (if any) fails. |
| `PropertyArrayFixture.LeadingRunStopsBefore` | ext/test/properties/propertyarray.zep.c:118-134 | The loop never returns an element at or after one that fails the test. |
| `PropertyArrayFixture.Issue1831StopsAt` | ext/test/properties/propertyarray.zep.c:118-134 | If the loop stops after `n` matches, it returns `s[..n]`. It leaves `s[n..]` (the failing element back in front), or `[NULL]` when all of `s` matched. |
| `PropertyArrayFixture.Issue1831Decomposes` | ext/test/properties/propertyarray.zep.c:118-134 | If some element fails the test, `headers ++ otherArray_after == otherArray_before`, and nothing at or after the first failure is returned. |
| `PropertyArrayFixture.Issue1831AllMatch` | ext/test/properties/propertyarray.zep.c:112-136 | If every element passes (the empty array included), all are returned and `otherArray` ends as `[NULL]`. |
| `PropertyArrayFixture.Issue1831NotArray` | ext/test/properties/propertyarray.zep.c:116-134 | A non-array `otherArray` is left as it is and `[]` is returned. |
| `PropertyArrayFixture.Issue1831NoHeaderLine` | ext/test/properties/propertyarray.zep.c:112-136 | A one-line array whose line has no `h`/`H` is put back unchanged and `[]` is returned. |
| `PropertyArrayFixture.Issue1831Example` | ext/test/properties/propertyarray.zep.c:112-136 | From `["X-Header: 1", "Content-Type: text", x]` only `"X-Header: 1"` is returned, and `["Content-Type: text", x]` remains. |
| `PropertyArrayFixture.HeaderAtStartMatches` | ext/test/properties/propertyarray.zep.c:123-125 | A text starting with "header" in any case gives `stripos == 0` and still passes, because the test is `!== false` and not truthiness. |
| `PropertyArrayFixture.HeaderInsideMatches` | ext/test/properties/propertyarray.zep.c:121-125 | A text with "header" (in any case) at any position passes. |
| `PropertyArrayFixture.WithoutLetterHNeverMatches` | ext/test/properties/propertyarray.zep.c:121-125 | A text without `h` or `H` never passes. |
| `PropertyArrayFixture.ScalarNeverMatches` | ext/test/properties/propertyarray.zep.c:118-125 | NULL (including the NULL from shifting an empty array), booleans and integers never pass. |
| `PropertyArrayFixture.ArrayElementMatches` | ext/test/properties/propertyarray.zep.c:123-125 | `stripos` on an array element returns NULL, so the element passes. |
| `PropertyArrayFixture.ShiftedMatchCameFromArray` | ext/test/properties/propertyarray.zep.c:118-127 | A value that passes was shifted off a non-empty array. So every `continue` shortens `otherArray`, which is why the loop terminates. |
| `PhpValues.Text` | ext/test/properties/propertyarray.zep.c:123 | The text a string parameter receives: a string is itself, NULL and `false` are `""`, `true` is `"1"`, an integer is a non-empty run of digits and `-`. An array is refused (None), the case where the PHP 7 built-in warns and returns NULL. |
| `PhpValues.Stripos` | ext/test/properties/propertyarray.zep.c:123 | The result is NULL exactly for an array haystack, and otherwise either a position or `false`. An empty needle gives `false`. A position lies within the haystack's text with room for the needle after it. |
| `PhpValues.ArrayShift` | ext/test/properties/propertyarray.zep.c:118 | The value stays an array exactly when it was one. For a non-empty array, the removed element put in front of the new array gives back the old one. An empty array or a non-array yields NULL and is left as it is. |
| `PhpValues.ArrayUnshift` | ext/test/properties/propertyarray.zep.c:131 | The value stays an array exactly when it was one. For an array, the result is one longer, with the new element first and the old elements after it. A non-array is left as it is. |
| `PhpValues.StriposSpec` | ext/test/properties/propertyarray.zep.c:123 | `stripos` returns the first case-insensitive occurrence (as a character position), `false` exactly when there is none (or the needle is empty), and NULL for an array haystack. |
| `PhpValues.FindFrom` | ext/test/properties/propertyarray.zep.c:123 | Returns the first occurrence at or after the start position, or None when there is no occurrence there. |
| `PhpValues.ShiftUnshiftRoundTrip` | ext/test/properties/propertyarray.zep.c:118-131 | Unshifting what `array_shift` removed from a non-empty array restores the array. |
| `PhpValues.ShiftUnshiftEmpty` | ext/test/properties/propertyarray.zep.c:118-131 | On an empty array the shift yields NULL, and unshifting it leaves `[NULL]`. |
| `ExplodeOptimizer.Decide` | Library/Optimizers/FunctionCall/ExplodeOptimizer.php:35-93 | Declines exactly when there is no parameter list. Raises the two-parameter error exactly when there are fewer than two arguments, and the variant error exactly for an unusable symbol. Otherwise it emits. The string form is used exactly for a string-literal delimiter; the delimiter is the escaped literal or the resolved first argument, and the subject is always the resolved second argument. `kernel/operators` is registered exactly for a run-time limit, `kernel/string` always and last. The dynamic type is `array`, and the result is a `variable` expression naming the symbol. |
| `ExplodeOptimizer.Optimize` | Library/Optimizers/FunctionCall/ExplodeOptimizer.php:35-93 | Running the optimiser step by step gives exactly the outcome `Decide` specifies. |
| `ExplodeOptimizer.PresentMembers` | Library/Optimizers/FunctionCall/ExplodeOptimizer.php:59-72 | After `unset`, a parameter is among the list's remaining entries exactly when some slot still holds it. |
| `ExplodeOptimizer.ConsumeLiterals` | Library/Optimizers/FunctionCall/ExplodeOptimizer.php:54-70 | After the unsets, the parameters left are the arguments minus a three-argument call's `int` literal limit and a string-literal delimiter. The limit is that literal or `LONG_MAX`. `limitOffset` is 1 exactly when a delimiter was removed and two parameters remain, else 2. |
| `ExplodeOptimizer.LimitOffsetAgrees` | Library/Optimizers/FunctionCall/ExplodeOptimizer.php:57-77 | The run-time limit `zephir_get_intval(resolvedParams[limitOffset])` is used exactly when that index exists, and then it picks the argument the table names. |
| `ExplodeOptimizer.ThirdArgumentIsLimit` | Library/Optimizers/FunctionCall/ExplodeOptimizer.php:57-77 | With exactly three arguments, the limit is the third argument: inlined if it is an `int` literal, else converted at run time. |
| `ExplodeOptimizer.TwoArgumentsUseLongMax` | Library/Optimizers/FunctionCall/ExplodeOptimizer.php:57-80 | With two arguments, the limit is `LONG_MAX` and only `kernel/string` is registered. |

## Left out

- Zend and Zephir runtime plumbing is not modelled: memory frames (`ZEPHIR_MM_GROW`/`RESTORE`), `ZVAL_UNDEF`, `ZEPHIR_MAKE_REF`/`UNREF`, reference counting, call caches and `zephir_check_call_status`. Property values are immutable PHP values, which matches PHP's copy-on-write semantics for arrays.
- Class registration, property visibility (public/protected) and the `create_object` hook mechanism are not modelled. Only their effect is: three NULL properties, then defaulted.
- PHP arrays are lists with keys 0..n-1. String keys, sparse keys and the re-indexing rules of `array_shift` on such arrays are not modelled.
- PHP values are limited to NULL, booleans, integers, strings and arrays. Floats, objects and resources are left out. `stripos` would convert the first two with rules not modelled here.
- `PhpValues.Stripos`: positions are counted in characters rather than bytes, so a text with multi-byte characters gives a smaller position than PHP would. Byte strings that are not valid text cannot be represented. The fixture only relies on match or no match, which this does not affect.
- `stripos` lower-cases ASCII letters only, as `tolower` does in the C locale. Other locales are not modelled.
- PHP 8 behaviour (a `TypeError` instead of a warning and NULL for a non-array `array_shift` or an array haystack) is not modelled. The generated code targets PHP 7.
- `PhpValues.FindFrom`: specified only by its result (first occurrence or none), not by the cost of the search.
- `Call::processExpectedReturn`, `getSymbolVariable`, `mustInitSymbolVariable`, `isNotVariableAndString`, `getVariableCode` and `getRealName` are not modelled. The model takes their results as the `CallSite` inputs.
- `getReadOnlyResolvedParams`: it is not part of this model. It is taken to resolve each remaining parameter to C code with a given function, in order and re-indexed from 0. Its own errors are not modelled.
- `add_slashes`: treated as an opaque function from strings to strings.
- `headersManager->add` is modelled as the ordered list of headers added. Duplicates across calls are not merged.
- `initVariant` is recorded as a flag. `setDynamicTypes` is recorded as the type name. Their effect on the symbol table is not modelled.
- `CompiledExpression` keeps its kind and code, not the original expression it carries.
- The runtime behaviour of the emitted `zephir_fast_explode` and `zephir_fast_explode_str` C functions is not modelled. Their code is not part of this model.
