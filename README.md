# Small-loaders metaspace repro, modelled in Dafny

The repro `SmallLoadersTest` stresses the JVM's metaspace. It generates
`num_classes_per_loader` small classes (`myclass_0`, `myclass_1`, ...) and
compiles them in memory. It then keeps `num_loaders_per_generation * 10` class
loaders in one array. The loaders form ten interleaved generations: slot `i`
belongs to generation `i % 10`. Each cycle does three things:

1. It refills every null slot with a fresh loader.
2. It makes every loader load the generated classes, `loads_per_step` at a
   time and round by round, until every loader holds all of them.
3. It frees every generation except the last.

At the end it frees all ten generations.

The class texts come from `Utils`:

- `nameClass` names the classes.
- `fluctuate` jitters a class's size by a random draw.
- `makeRandomSource` writes a class with that many field groups and getter
  groups around a `CLASSNAME` placeholder.
- `createRandomClass` puts the class name in place of the placeholder.
- `generateClasses` does this for every class number.

The model has four modules:

- `Wrappers`: `Option`, which models a null reference, and `Result`, which
  models a thrown exception.
- `JavaLang`: 32-bit `int` arithmetic (`Wrap`), `Integer.toString`,
  `Integer.toHexString`, and the two exceptions the modelled code can raise.
- `Utils` (`Utils.java`):
  - Class names and the size jitter are functions.
  - `makeRandomSource` is a method over a string builder. The builder is the
    sequence of appended `Line`s, and `Render` gives each line's text.
  - `generateClasses` is a loop. It is proved equal to the recursive function
    `CreatedClasses`.
  - A random draw is a parameter, restricted to the range `Random.nextInt`
    can return.
- `SmallLoadersTest` (`SmallLoadersTest.java`): the class `SmallLoadersTest`.
  - Its fields are the repro's settings and its array `loaders`.
  - A slot is `None` for `null`. A loader is `Some(names)`, where `names` are
    the classes it has loaded, in order. `Class.forName` appends a name.
  - Each method's `ensures` states the new contents of `loaders`.
    - `FreeGeneration`, `Refill` and `LoadRound` are proved equal to a
      function of the old contents: `Freed`, `Refilled` and `Round`.
    - `FullyLoaded` returns the predicate `AllFull`.
    - `LoadInterleavedLoaders`, `Cycle`, `RunCycles`, `FreeAll` and `Call`
      state the exact contents of every slot at the end.
    - The lemmas about `FreedUpTo`, which frees generations `0 .. n-1`,
      connect the freeing loops to those end states.
  - Every method keeps the class invariant `Valid()`. It says that each slot
    is null or holds `myclass_0, myclass_1, ...` in order, up to the cap.

## Model

| member | source | states |
|---|---|---|
| JavaLang.Wrap | examples/src/main/java/de/stuefe/repros/metaspace/SmallLoadersTest.java:102 | `int` arithmetic: the result is a 32-bit value congruent to the exact one modulo 2^32, and equal to it when that fits |
| JavaLang.IntToString | examples/src/main/java/de/stuefe/repros/metaspace/internals/Utils.java:16 | `Integer.toString`: only `-` and the decimal digits `0` .. `9`; what the digits mean is stated by `JavaLang.DecimalRoundTrip` |
| JavaLang.ToHexString | examples/src/main/java/de/stuefe/repros/metaspace/internals/Utils.java:74 | `Integer.toHexString` of a non-negative value: only lower-case hexadecimal digits; what they mean is stated by `JavaLang.HexRoundTrip` |
| JavaLang.DecimalNoLeadingZero | examples/src/main/java/de/stuefe/repros/metaspace/internals/Utils.java:16 | the decimal digits of a positive number start with a non-zero digit, as `Integer.toString` writes them |
| JavaLang.DecimalDigitsOnly | examples/src/main/java/de/stuefe/repros/metaspace/internals/Utils.java:16 | a decimal rendering holds only `0` .. `9`, never a hexadecimal letter |
| JavaLang.DecimalRoundTrip | examples/src/main/java/de/stuefe/repros/metaspace/internals/Utils.java:16 | reading back the decimal digits `"..." + number` writes, as `Integer.parseInt(s, 10)` does, gives the number |
| JavaLang.HexRoundTrip | examples/src/main/java/de/stuefe/repros/metaspace/internals/Utils.java:74 | reading back `Integer.toHexString(n)` in base 16 gives n, so the byte entries denote `0x0 .. 0x1d` |
| JavaLang.IntToStringInjective | examples/src/main/java/de/stuefe/repros/metaspace/internals/Utils.java:16 | different ints have different decimal renderings, sign included |
| Utils.NameClass | examples/src/main/java/de/stuefe/repros/metaspace/internals/Utils.java:15-17 | a class name is `myclass_` followed by exactly the decimal rendering of the number |
| Utils.NameClassInjective | examples/src/main/java/de/stuefe/repros/metaspace/internals/Utils.java:15-17 | different numbers give different class names |
| Utils.NameClassIsLiteral | examples/src/main/java/de/stuefe/repros/metaspace/internals/Utils.java:43 | a generated name has no `$` or `\`, so `replaceAll` inserts it literally |
| Utils.Fluctuate | examples/src/main/java/de/stuefe/repros/metaspace/internals/Utils.java:20-27 | throws `IllegalArgumentException` exactly when the bound `2*d+1` overflows (d >= 2^30); no jitter when d < 1; otherwise the result is `n + draw - d` in `int` arithmetic, which lies in `[n-d, n+d]` when `n-d` and `n+d` fit in an `int` |
| Utils.FluctuateReachesWindow | examples/src/main/java/de/stuefe/repros/metaspace/internals/Utils.java:23-26 | every value of `[n-d, n+d]` is the outcome of some allowed draw |
| Utils.Render | examples/src/main/java/de/stuefe/repros/metaspace/internals/Utils.java:60-84 | no `ensures`: gives the exact string each `append` call passes, one case per call |
| Utils.FieldCount | examples/src/main/java/de/stuefe/repros/metaspace/internals/Utils.java:61-68 | the number of field groups, as written: `size` without spread, at most 1 with a positive spread |
| Utils.FieldsLayout | examples/src/main/java/de/stuefe/repros/metaspace/internals/Utils.java:69-78 | the field loop writes 34 lines per group, and group i is the lines `34*i .. 34*i+33` |
| Utils.GettersLayout | examples/src/main/java/de/stuefe/repros/metaspace/internals/Utils.java:79-83 | the getter loop writes 3 lines per group, and group k is the lines `3*k .. 3*k+2` |
| Utils.FieldsShape | examples/src/main/java/de/stuefe/repros/metaspace/internals/Utils.java:69-78 | the field groups contain no getters, and only fields with indices below the count |
| Utils.FieldsDeclare | examples/src/main/java/de/stuefe/repros/metaspace/internals/Utils.java:69-78 | the field groups declare `i<i>`, `s<i>` and `b<i>` for every index below the count |
| Utils.GettersReturn | examples/src/main/java/de/stuefe/repros/metaspace/internals/Utils.java:79-83 | the getter groups contain no fields, only getters with indices below the count, and `get_i<i>` for each such index |
| Utils.GettersCovered | examples/src/main/java/de/stuefe/repros/metaspace/internals/Utils.java:69-83 | with no more getter groups than field groups, each getter's field is declared in the class |
| Utils.GettersUncovered | examples/src/main/java/de/stuefe/repros/metaspace/internals/Utils.java:69-83 | with more getter groups than field groups, the last `get_i` returns an undeclared field |
| Utils.SourceGettersHaveFields | examples/src/main/java/de/stuefe/repros/metaspace/internals/Utils.java:69-83 | every getter returns a declared field if and only if there are no more getter groups than field groups |
| Utils.ByteEntriesAre | examples/src/main/java/de/stuefe/repros/metaspace/internals/Utils.java:73-75 | byte entry j of each array is `0x` followed by j in lower-case hexadecimal |
| Utils.TextAppend | examples/src/main/java/de/stuefe/repros/metaspace/internals/Utils.java:85 | the builder's text is the appended strings, concatenated in order |
| Utils.AppendByteArrayEntries | examples/src/main/java/de/stuefe/repros/metaspace/internals/Utils.java:73-75 | the loop guarded by `j < 10 + (j % 30)` appends exactly the 30 entries `0x0 .. 0x1d`, in order |
| Utils.AppendFieldGroup | examples/src/main/java/de/stuefe/repros/metaspace/internals/Utils.java:70-77 | one pass appends fields `i<i>`, `s<i>`, `b<i>` and the array's end |
| Utils.AppendGetterGroup | examples/src/main/java/de/stuefe/repros/metaspace/internals/Utils.java:80-82 | one pass appends getters `get_i<i>`, `get_s<i>` and `get_b<i>` |
| Utils.BuildSource | examples/src/main/java/de/stuefe/repros/metaspace/internals/Utils.java:59-85 | the builder ends as the header, the field groups 0..f-1, the getter groups 0..g-1 and the trailer |
| Utils.MakeRandomSource | examples/src/main/java/de/stuefe/repros/metaspace/internals/Utils.java:57-86 | as written: `FieldCount` field groups, and `size` getter groups |
| Utils.SourceTextFrame | examples/src/main/java/de/stuefe/repros/metaspace/internals/Utils.java:60-84 | every generated text starts with `public class CLASSNAME {` and ends with `};` |
| Utils.WiggleDropsFields | examples/src/main/java/de/stuefe/repros/metaspace/internals/Utils.java:64-79 | as written, with a positive spread and size >= 2, the generated lines contain a getter whose field is not declared |
| Utils.WiggleDropsFieldsExample | examples/src/main/java/de/stuefe/repros/metaspace/internals/Utils.java:64-79 | size 2, spread 2, draw 0: one field group, two getter groups, and a getter without its field |
| Utils.IntendedFieldCount | examples/src/main/java/de/stuefe/repros/metaspace/internals/Utils.java:61-68 | corrected count: `size` without spread; otherwise at least 1, and within the window `[size - spread/2, size - spread/2 + spread)` when the jittered count `size + offset - spread/2` is at least 1 and fits in an `int` |
| Utils.IntendedFieldCountAgrees | examples/src/main/java/de/stuefe/repros/metaspace/internals/Utils.java:66-68 | without spread the corrected count and the count as written are both `size` |
| Utils.IntendedFieldCountReachesWindow | examples/src/main/java/de/stuefe/repros/metaspace/internals/Utils.java:63-65 | every count of the window that is at least 1 comes from some draw |
| Utils.MakeRandomSourceIntended | examples/src/main/java/de/stuefe/repros/metaspace/internals/Utils.java:57-86 | corrected: equal numbers of field groups and getter groups, so every getter in the generated lines returns a declared field |
| Utils.ReplaceAll | examples/src/main/java/de/stuefe/repros/metaspace/internals/Utils.java:43 | no `ensures`: replaces every occurrence of a literal pattern, found from the left without overlaps; the `ReplaceAll` lemmas state its behaviour |
| Utils.ReplaceAllSkip | examples/src/main/java/de/stuefe/repros/metaspace/internals/Utils.java:43 | text in which the pattern cannot start is copied unchanged ahead of the rest |
| Utils.ReplaceAllMatch | examples/src/main/java/de/stuefe/repros/metaspace/internals/Utils.java:43 | an occurrence at the start is replaced and the scan continues after it |
| Utils.ReplaceAllAbsent | examples/src/main/java/de/stuefe/repros/metaspace/internals/Utils.java:43 | a text without the pattern's first letter is returned unchanged |
| Utils.ReplaceAllOnce | examples/src/main/java/de/stuefe/repros/metaspace/internals/Utils.java:43 | a single occurrence is replaced and everything around it is kept |
| Utils.RenderPlaceholderFree | examples/src/main/java/de/stuefe/repros/metaspace/internals/Utils.java:70-84 | no appended string except the header contains `C`, the placeholder's first letter |
| Utils.BodyPlaceholderFree | examples/src/main/java/de/stuefe/repros/metaspace/internals/Utils.java:69-84 | the text after the header never contains the placeholder's first letter |
| Utils.NameHeader | examples/src/main/java/de/stuefe/repros/metaspace/internals/Utils.java:43 | replacing `CLASSNAME` names the header and keeps the rest |
| Utils.NameSource | examples/src/main/java/de/stuefe/repros/metaspace/internals/Utils.java:43 | `replaceAll("CLASSNAME", name)` on a generated text gives the text of class `name`, with the body untouched |
| Utils.CreatedClass | examples/src/main/java/de/stuefe/repros/metaspace/internals/Utils.java:40-46 | throws exactly when `fluctuate` does; otherwise keeps the name and has size >= 1, which is `max(1, sizeFactor)` without wiggle |
| Utils.CreateRandomClass | examples/src/main/java/de/stuefe/repros/metaspace/internals/Utils.java:40-46 | the text handed to the compiler is the named class's text, with the clamped size in field groups and getter groups |
| Utils.CreatedClasses | examples/src/main/java/de/stuefe/repros/metaspace/internals/Utils.java:29-38 | no `ensures`: the classes of rounds 0 .. count-1, or the first exception; `Utils.CreatedClassesFail` and `Utils.CreatedClassesAre` state its meaning |
| Utils.CreatedClassesFail | examples/src/main/java/de/stuefe/repros/metaspace/internals/Utils.java:29-38 | `generateClasses` throws exactly when there is a class to create and the deviation overflows |
| Utils.CreatedClassesAre | examples/src/main/java/de/stuefe/repros/metaspace/internals/Utils.java:29-38 | otherwise it creates `max(num, 0)` classes, and class j is `myclass_<j>`, created with draw j |
| Utils.CreatedClassNamesDistinct | examples/src/main/java/de/stuefe/repros/metaspace/internals/Utils.java:29-38 | the generated classes have pairwise different names |
| Utils.GenerateClasses | examples/src/main/java/de/stuefe/repros/metaspace/internals/Utils.java:29-38 | the loop creates exactly `CreatedClasses(num, ...)`, and the texts compiled are those classes' texts, in order; on an exception nothing was compiled |
| Utils.Sources | examples/src/main/java/de/stuefe/repros/metaspace/internals/Utils.java:44 | text j of the list is the text of class j, and there is one text per class |
| SmallLoadersTest.ClassNamesExtend | examples/src/main/java/de/stuefe/repros/metaspace/SmallLoadersTest.java:114-120 | loading the next `toLoad` names after the first `loaded` continues the sequence `myclass_0, myclass_1, ...` |
| SmallLoadersTest.FullSlot | examples/src/main/java/de/stuefe/repros/metaspace/SmallLoadersTest.java:88-95 | a well-loaded full loader holds exactly `myclass_0 .. myclass_{n-1}` |
| SmallLoadersTest.FullSlots | examples/src/main/java/de/stuefe/repros/metaspace/SmallLoadersTest.java:88-95 | when `fullyLoaded()` holds, every loader holds exactly the generated names |
| SmallLoadersTest.InGenerationByRemainder | examples/src/main/java/de/stuefe/repros/metaspace/SmallLoadersTest.java:134-139 | slot i is in generation g, for g below 10, if and only if `i % 10 == g` |
| SmallLoadersTest.FreedUpToByRemainder | examples/src/main/java/de/stuefe/repros/metaspace/SmallLoadersTest.java:134-139 | after freeing generations 0..n-1 a slot is null if and only if `i % 10 < n`, and is otherwise unchanged |
| SmallLoadersTest.FreeAllEmpties | examples/src/main/java/de/stuefe/repros/metaspace/SmallLoadersTest.java:209-211 | freeing all ten generations nulls every slot, whatever the array's length |
| SmallLoadersTest.FreeAllButLastKeepsLast | examples/src/main/java/de/stuefe/repros/metaspace/SmallLoadersTest.java:191-197 | freeing generations 0..8 keeps exactly the slots with `i % 10 == 9` |
| SmallLoadersTest.FreedKeepsWellLoaded | examples/src/main/java/de/stuefe/repros/metaspace/SmallLoadersTest.java:134-139 | freeing a generation keeps every slot null or well loaded |
| SmallLoadersTest.RefilledKeepsSurvivors | examples/src/main/java/de/stuefe/repros/metaspace/SmallLoadersTest.java:104-109 | the refill leaves no null slot and leaves every surviving loader as it was |
| SmallLoadersTest.StepLoads | examples/src/main/java/de/stuefe/repros/metaspace/SmallLoadersTest.java:113-120 | a loader gains `max(0, min(loads_per_step, cap - loaded))` names and never passes the cap; a full loader is left alone, and with `loads_per_step >= 1` any other gains at least one name |
| SmallLoadersTest.StepKeepsWellLoaded | examples/src/main/java/de/stuefe/repros/metaspace/SmallLoadersTest.java:114-120 | loading into one loader keeps every slot well loaded |
| SmallLoadersTest.RoundKeepsWellLoaded | examples/src/main/java/de/stuefe/repros/metaspace/SmallLoadersTest.java:113-121 | a round keeps every loader well loaded, whatever `loads_per_step` is |
| SmallLoadersTest.RoundLoads | examples/src/main/java/de/stuefe/repros/metaspace/SmallLoadersTest.java:112-127 | with `loads_per_step >= 1` or a cap of at most 0, which `call`'s clamp guarantees, after r rounds every loader holds at least `min(cap, r)` classes, so the do-while ends within `cap` rounds |
| SmallLoadersTest.LoadedClassesWereGenerated | examples/src/main/java/de/stuefe/repros/metaspace/SmallLoadersTest.java:172 | the names the loaders load are exactly the names `generateClasses` compiled, in order |
| SmallLoadersTest.ClampLoadsPerStep | examples/src/main/java/de/stuefe/repros/metaspace/SmallLoadersTest.java:147-148 | `loads_per_step` lies in `[1, cap]` when cap >= 1; it is unchanged inside that range and moved to the nearer end outside it |
| SmallLoadersTest.ClampRepeatCycles | examples/src/main/java/de/stuefe/repros/metaspace/SmallLoadersTest.java:156-157 | `repeat_cycles` lies in `[1, 100]`; it is unchanged inside that range and moved to the nearer end outside it |
| SmallLoadersTest.SmallLoadersTest.constructor | examples/src/main/java/de/stuefe/repros/metaspace/SmallLoadersTest.java:30-52 | the options and the field defaults, with a fresh array and no slots yet |
| SmallLoadersTest.SmallLoadersTest.TotalLoaders | examples/src/main/java/de/stuefe/repros/metaspace/SmallLoadersTest.java:102 | `total_loaders`: an `int`, equal to `num_loaders_per_generation * 10` when that product fits |
| SmallLoadersTest.SmallLoadersTest.FreeGeneration | examples/src/main/java/de/stuefe/repros/metaspace/SmallLoadersTest.java:134-139 | nulls exactly the slots `i >= gen` with `(i - gen) % 10 == 0`, changes no other slot, and keeps the invariant |
| SmallLoadersTest.SmallLoadersTest.FullyLoaded | examples/src/main/java/de/stuefe/repros/metaspace/SmallLoadersTest.java:88-95 | true if and only if every slot holds a loader with at least `num_classes_per_loader` classes |
| SmallLoadersTest.SmallLoadersTest.Refill | examples/src/main/java/de/stuefe/repros/metaspace/SmallLoadersTest.java:102-109 | replaces exactly the null slots with empty loaders, and keeps the invariant |
| SmallLoadersTest.SmallLoadersTest.LoadClasses | examples/src/main/java/de/stuefe/repros/metaspace/SmallLoadersTest.java:114-120 | for a loader within the cap, one loader loads its next `toLoad` names in sequence, the other slots are untouched, and the class invariant is kept |
| SmallLoadersTest.SmallLoadersTest.LoadRound | examples/src/main/java/de/stuefe/repros/metaspace/SmallLoadersTest.java:113-121 | for well-loaded loaders, one pass applies that step to every loader, and keeps the invariant |
| SmallLoadersTest.SmallLoadersTest.LoadInterleavedLoaders | examples/src/main/java/de/stuefe/repros/metaspace/SmallLoadersTest.java:97-132 | terminates when a step loads at least one class; every loader ends holding exactly `myclass_0 .. myclass_{n-1}`; a loader left over full from the last wave is not touched |
| SmallLoadersTest.SmallLoadersTest.Cycle | examples/src/main/java/de/stuefe/repros/metaspace/SmallLoadersTest.java:181-205 | after a cycle, the slots with `i % 10 == 9` hold full loaders, all other slots are null, and the invariant holds |
| SmallLoadersTest.SmallLoadersTest.RunCycles | examples/src/main/java/de/stuefe/repros/metaspace/SmallLoadersTest.java:181-205 | with no cycles the slots are unchanged; otherwise the last generation's loaders are full and every other slot is null; the invariant is kept |
| SmallLoadersTest.SmallLoadersTest.FreeAll | examples/src/main/java/de/stuefe/repros/metaspace/SmallLoadersTest.java:209-211 | every slot ends null |
| SmallLoadersTest.SmallLoadersTest.Call | examples/src/main/java/de/stuefe/repros/metaspace/SmallLoadersTest.java:142-221 | clamps both settings; throws `NegativeArraySizeException` exactly when the wrapped loader count is negative, and `IllegalArgumentException` exactly when class generation throws; otherwise returns 0 with every slot null. After the negative count the old array is kept; after the generation error `loaders` is the new all-null array of `TotalLoaders()` slots |

## Left out

- Output, `waitForKeyPress`, `System.gc()`, the timing fields and the elapsed-time report are side effects. None of them affects the slots.
- The command-line parsing and `main` are left out. The constructor takes the two options as already parsed.
- Floating point is not modelled. The clamps of `interleave`, `timefactor` and `wiggle` are left out, and so are the float-to-int casts. Three values are therefore integer inputs:
  - the raw `loads_per_step`, which is `(int)(num_classes_per_loader * interleave)`;
  - `max_abs_deviation`, which is `(int)(n * wiggle)`;
  - `spread`, which is `(int)(size * wiggle)`.
- `Call` states an `IllegalArgumentException` for a deviation of 2^30 or more. The program cannot reach it: `wiggle` is clamped to `[0, 10]` (`SmallLoadersTest.java:153-154`) and `class_size_factor` is 10 (line 42), so `max_abs_deviation` lies in `[0, 100]`. The model takes the deviation as an input, so it keeps that path.
- `Random` is not modelled. Each `nextInt` result is a parameter, restricted to the range that `nextInt` can return.
- Compilation (`compileSingleFile`), its `assert(success)`, `InMemoryClassLoader` and `Class.forName` are not modelled. Compiling a class means producing its text. Loading a class means appending its name to the loader's list, assuming the load succeeds.
- Utils.ReplaceAll: regular-expression replacement is modelled only for a literal pattern. Its callers must pass a replacement without `$` or `\`. Generated class names satisfy this (`Utils.NameClassIsLiteral`).
- The two-argument `createRandomClass` and the one-argument `makeRandomSource` are not modelled separately. They only pass the default wiggle 0, so spread is 0. `Utils.CreateRandomClass` calls `Utils.MakeRandomSource` as written, with spread 0.
- SmallLoadersTest.SmallLoadersTest.FreeGeneration: requires `gen >= 0`. A negative `gen` would index outside the array, and `call` never passes one.
- SmallLoadersTest.SmallLoadersTest.FreeGeneration: `i += num_generations` is unbounded. This differs from Java only for an array within 10 of `Integer.MAX_VALUE` elements, where the addition would wrap.
- SmallLoadersTest.SmallLoadersTest.LoadClasses and SmallLoadersTest.SmallLoadersTest.LoadRound: require an `int` cap and loaders holding at most `max(cap, 0)` names. Java computes `num_classes_per_loader - loaded` in `int` arithmetic (`SmallLoadersTest.java:115`), and `ToLoad` does not wrap it. Under the requirement the subtraction cannot wrap, so the two agree. The class invariant `Valid()` guarantees the requirement, so `call` always meets it.
- SmallLoadersTest.SmallLoadersTest.LoadInterleavedLoaders: requires `loads_per_step >= 1` or a cap of at most 0. Without that, the do-while does not end while some slot is below the cap. It still ends when no slot is below the cap, for example when there are no slots at all. `call`'s clamp guarantees the requirement.
- SmallLoadersTest.SmallLoadersTest.constructor: before `call`, Java's `loaders` is `null`. The model starts with an empty array.
- The private `nameClass` of `SmallLoadersTest` (`SmallLoadersTest.java:26-28`) is identical to `Utils.nameClass`. It is modelled once, as `Utils.NameClass`.
- `createClassFromSource` and the other files of the repository are not part of this model.

## Findings

| source | as written | input that shows it | evidently intended | confidence | as-written member | corrected member |
|---|---|---|---|---|---|---|
| examples/src/main/java/de/stuefe/repros/metaspace/internals/Utils.java:65 | With a positive spread, `size_with_wiggle = Math.min(size + (offset - spread / 2), 1)` caps the number of field groups at 1. The getter loop (line 79) still runs to `size`, so for every size >= 2 the getters `get_i1` ... return fields that were never declared. | `makeRandomSource(2, 1.0f)`: spread 2 and draw 0 give one field group and two getter groups. | `Math.max(..., 1)`: a jittered size of at least 1, used by both loops. | not executed | Utils.WiggleDropsFieldsExample | Utils.MakeRandomSourceIntended |

`Utils.WiggleDropsFields` states the as-written defect for every size of at least 2. `Utils.IntendedFieldCount` is the corrected count. When spread is 0 the two versions agree (`Utils.IntendedFieldCountAgrees`). That is the only spread `createRandomClass` uses, so `Utils.CreateRandomClass` calls the as-written `Utils.MakeRandomSource`, and the defect cannot reach the classes the repro compiles. "Getters return declared fields" is a property of the appended lines, `Utils.GettersHaveFields`. `Utils.SourceGettersHaveFields` proves it holds exactly when there are no more getter groups than field groups.
