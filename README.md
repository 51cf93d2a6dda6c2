# ICD-9 code kind checks

A Dafny model of the prefix checks of the `icd9` R package
(`src/is.cpp`). These checks tell ordinary numeric ICD-9 codes apart from
V-codes (supplementary classification, e.g. "V10") and E-codes (external
causes, e.g. "E849") by looking at the first character of the code string
that is not a blank.

- `icd9IsASingle(s, x)` skips leading blanks in `s` and answers whether the
  character it then stands on is one of the characters of `x`.
- `icd9IsASingleV`, `icd9IsASingleE` and `icd9IsASingleVE` are fixed
  versions of that check for 'V'/'v', 'E'/'e' and all four letters.
- `icd9IsA(sv, x, invert)` runs the check over a vector of strings and
  returns a same-length vector of answers, each flipped when `invert` holds.

The project has two modules:

- `IcdIsSpec` (`icd_is_spec.dfy`) holds the pure specification. A C string is a
  `CString`: a `seq<char>` with no NUL, where the end of the sequence stands
  for the terminator. `LeadingSpaces` and `FirstNonSpace` define "the first
  character that is not a blank". `StartsWithAny(s, x)` is the prefix
  check, and `IsAResults` gives the answers of the vector check. The module
  also holds the lemmas about these functions.
- `IcdIs` (`icd_is.dfy`) holds the checks themselves, as methods whose index
  loops follow the pointer loops of the C code. Reading `*s` at the
  end of a string reads the NUL (`CharAt`). The loop `while (*s == ' ') ++s;`,
  which the source repeats in all four single-string checks, is written
  once, as `SkipSpaces`. `IsA` allocates a fresh `array<bool>` and fills it in a
  counted loop, as the source fills its `std::vector<bool>`.

Only the character ' ' is skipped. The source's own comment at
src/is.cpp:46 notes that other white space is not skipped. The model
keeps that behaviour: a leading tab is compared as it is
(`LeadingTabHidesV`).

## Model

| member | source | states |
|---|---|---|
| IcdIs.SkipSpaces | src/is.cpp:23-24 | the blank-skipping loop stops at the first non-blank character or at the terminator: every character before the result is ' ', the one at it is not, and it is short of the end exactly when the string has a non-blank character |
| IcdIs.IsASingle | src/is.cpp:22-31 | true exactly when some character of `s` has only blanks before it, is not a blank itself, and occurs in `x`; equal to `StartsWithAny(s, x)` |
| IcdIs.IsASingleV | src/is.cpp:33-37 | true exactly when the first non-blank character is 'V' or 'v'; the same as the general check with "Vv" |
| IcdIs.IsASingleE | src/is.cpp:39-43 | true exactly when the first non-blank character is 'E' or 'e'; the same as the general check with "Ee" |
| IcdIs.IsASingleVE | src/is.cpp:45-51 | true exactly when the first non-blank character is one of 'V', 'E', 'v', 'e'; equal to the general check with "VvEe" and to the V check or the E check |
| IcdIs.IsA | src/is.cpp:54-67 | returns a fresh array as long as `sv` whose element `i` is `invert != icd9IsASingle(sv[i], x)`, and equals `IsAResults(sv, x, invert)`; `invert` defaults to false, as in the source |
| IcdIsSpec.LeadingSpaces | src/is.cpp:23-24 | the count of leading blanks: all characters before it are ' ' and the next one, if any, is not |
| IcdIsSpec.FirstNonSpace | src/is.cpp:23-26 | None exactly when the string is empty or all blanks; otherwise a non-blank character that has only blanks before it |
| IcdIsSpec.FirstNonSpaceAt | src/is.cpp:23-24 | a position with only blanks before it and a non-blank on it is where the skip loop stops, and its character is the first non-blank one |
| IcdIsSpec.StartsWithAnyIff | src/is.cpp:22-31 | both directions: the prefix check holds iff some character is preceded only by blanks, is not a blank, and occurs in `x` |
| IcdIsSpec.NonBlankFirstDecides | src/is.cpp:23-26 | a string that starts with any character other than ' ' (a tab included) is judged by that character alone |
| IcdIsSpec.LeadingTabHidesV | src/is.cpp:33-36 | a leading tab is not skipped: "\tV" is not a V-code, " V" is |
| IcdIsSpec.SpacesIgnored | src/is.cpp:23-24 | any number of leading blanks leaves the first non-blank character unchanged |
| IcdIsSpec.BlankNeverMatches | src/is.cpp:23-30 | an empty string or a string of blanks gives false for every `x` |
| IcdIsSpec.EmptySetNeverMatches | src/is.cpp:25-30 | an empty `x` gives false for every `s` |
| IcdIsSpec.AppendKeepsFirstNonSpace | src/is.cpp:22-51 | once a string has a non-blank character, appending characters does not change the first one, so no check changes its answer |
| IcdIsSpec.SamePrefixSameFirst | src/is.cpp:22-51 | two strings that agree up to and including the first non-blank character get the same answer from every prefix check |
| IcdIsSpec.StartsWithAnyUnion | src/is.cpp:25-29 | checking against `x + y` is checking against `x` or against `y` |
| IcdIsSpec.VEIsVOrE | src/is.cpp:45-49 | the V-or-E check equals the V check or the E check |
| IcdIsSpec.VAndEExclusive | src/is.cpp:33-43 | no string passes both the V check and the E check |
| IcdIsSpec.IsAResultsAt | src/is.cpp:61-66 | the vector of answers is as long as `sv`, and answer `i` is the prefix check on `sv[i]` flipped by `invert` |
| IcdIsSpec.InvertNegates | src/is.cpp:54-64 | for the same `sv` and `x`, the `invert = true` answers are the element-wise negation of the `invert = false` answers |
| IcdIsSpec.IsAResultsAppend | src/is.cpp:63-65 | each string is checked on its own: the answers for `a + b` are the answers for `a` followed by those for `b` |

## Left out

- The Rcpp annotations at src/is.cpp:18 and src/is.cpp:53, and the R binding layer they generate. These are glue to another language.
- The comment at src/is.cpp:56-60 about `std::vector<bool>` and threads. It concerns storage layout and concurrency, not what the function returns.
- NUL characters inside a `std::string` of `sv`. `c_str()` would cut such a string at its first NUL. Every string is taken to hold no NUL, which the `CString` type states.
- IcdIs.IsASingle: each Dafny `char` stands for one C `char` (one byte). The source compares strings with multi-byte (UTF-8) characters byte by byte, so two different characters that share a first byte match there; the model compares whole characters and does not capture this. The V, E and V-or-E checks are unaffected, since ' ' and the four letters are ASCII and no byte of a multi-byte UTF-8 character is ASCII; `IcdIs.IsA` inherits the difference from `IcdIs.IsASingle`.
- IcdIs.IsA: does not model `int len = sv.size()` overflowing for a vector of more than 2^31 - 1 strings, because Dafny's integers are unbounded and such a vector is not a realistic input.
- The commented-out alternative at src/is.cpp:50 (`find_first_of("VvEe")`) is dead code. It would look at every character, not only the first non-blank one, and is not modelled.
- Code parsing, short/decimal conversion, hierarchy and range expansion, comorbidity mapping and the lookup-table builder of the `icd9` package. The files that implement them are not part of this model.
