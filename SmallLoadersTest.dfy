/**
 * The loader bookkeeping of the small-loaders repro (`SmallLoadersTest`): an
 * array of loader slots, ten generations interleaved in it, that is refilled
 * and loaded in rounds, then freed generation by generation.
 *
 * A `LoaderInfo` is modelled by the names of the classes its loader has
 * loaded, in order, and a `null` slot by `None`; `Class.forName(name, true, cl)`
 * appends `name`. Waiting, printing, garbage collection and timing are left out.
 */
module SmallLoadersTest {
  import opened Wrappers
  import opened JavaLang
  import opened Utils

  /** A loader slot: `null`, or a loader with the names of the classes it has loaded. */
  type Slot = Option<seq<string>>

  /** `num_generations`, which nothing reassigns. */
  const NumGenerations: int := 10

  /** The names `myclass_0 .. myclass_{n-1}`, in order. */
  function ClassNames(n: int): seq<string> {
    seq(Max(n, 0), k => NameClass(k))
  }

  /** The names `myclass_{from} .. myclass_{from+count-1}`, in order. */
  function NameRange(from: int, count: int): seq<string> {
    seq(Max(count, 0), k => NameClass(from + k))
  }

  /** Loading the next names after the first n continues the sequence. */
  lemma ClassNamesExtend(n: int, count: int)
    requires n >= 0
    ensures ClassNames(n) + NameRange(n, count) == ClassNames(n + Max(count, 0))
  {
    var joined := ClassNames(n) + NameRange(n, count);
    forall k | 0 <= k < |joined|
      ensures joined[k] == NameClass(k)
    {
      if k >= n {
        assert joined[k] == NameRange(n, count)[k - n];
      }
    }
  }

  // ---------------------------------------------------------------------------
  // Slots and generations

  /** A slot is null, or its loader has loaded `myclass_0 ..` in order, and no more than the cap. */
  predicate WellLoaded(slot: Slot, classesPerLoader: int) {
    slot.Some? ==> |slot.value| <= Max(classesPerLoader, 0) && slot.value == ClassNames(|slot.value|)
  }

  predicate AllWellLoaded(slots: seq<Slot>, classesPerLoader: int) {
    forall k :: 0 <= k < |slots| ==> WellLoaded(slots[k], classesPerLoader)
  }

  /** What `fullyLoaded` asks of one slot: a loader that has loaded at least the cap. */
  predicate IsFull(slot: Slot, classesPerLoader: int) {
    slot.Some? && |slot.value| >= classesPerLoader
  }

  predicate AllFull(slots: seq<Slot>, classesPerLoader: int) {
    forall k :: 0 <= k < |slots| ==> IsFull(slots[k], classesPerLoader)
  }

  /** A well-loaded full slot holds exactly the first `classesPerLoader` names. */
  lemma FullSlot(slot: Slot, classesPerLoader: int)
    requires WellLoaded(slot, classesPerLoader) && IsFull(slot, classesPerLoader)
    ensures slot == Some(ClassNames(classesPerLoader))
  {
  }

  /** Slot i belongs to generation `gen` when it is `gen`, `gen + 10`, `gen + 20`, ... */
  predicate InGeneration(i: int, gen: int) {
    i >= gen && (i - gen) % NumGenerations == 0
  }

  /** For the ten generations, generation `gen` is the slots whose index ends in `gen`. */
  lemma InGenerationByRemainder(i: int, gen: int)
    requires 0 <= i && 0 <= gen < NumGenerations
    ensures InGeneration(i, gen) <==> i % NumGenerations == gen
  {
    if i % NumGenerations == gen {
      assert i - gen == NumGenerations * (i / NumGenerations);
    }
  }

  /** The slots after `freeGeneration(gen)`: those of the generation are null, all others as they were. */
  function Freed(slots: seq<Slot>, gen: int): (r: seq<Slot>)
    ensures |r| == |slots|
  {
    seq(|slots|, i requires 0 <= i < |slots| => if InGeneration(i, gen) then None else slots[i])
  }

  /** The slots after `freeGeneration(0)`, ..., `freeGeneration(n - 1)`, in that order. */
  function FreedUpTo(slots: seq<Slot>, n: int): (r: seq<Slot>)
    ensures |r| == |slots|
    decreases n
  {
    if n <= 0 then slots else Freed(FreedUpTo(slots, n - 1), n - 1)
  }

  /** Freeing the first n generations nulls exactly the slots whose index ends in a digit below n. */
  lemma {:induction false} FreedUpToByRemainder(slots: seq<Slot>, n: int)
    requires 0 <= n <= NumGenerations
    ensures forall i :: 0 <= i < |slots| ==>
              FreedUpTo(slots, n)[i] == if i % NumGenerations < n then None else slots[i]
    decreases n
  {
    if n > 0 {
      FreedUpToByRemainder(slots, n - 1);
      forall i | 0 <= i < |slots|
        ensures FreedUpTo(slots, n)[i] == if i % NumGenerations < n then None else slots[i]
      {
        InGenerationByRemainder(i, n - 1);
      }
    }
  }

  /** Freeing a generation keeps every slot null or well loaded. */
  lemma FreedKeepsWellLoaded(slots: seq<Slot>, gen: int, classesPerLoader: int)
    requires AllWellLoaded(slots, classesPerLoader)
    ensures AllWellLoaded(Freed(slots, gen), classesPerLoader)
  {
  }

  /** Freeing all ten generations nulls every slot, whatever the length of the array. */
  lemma FreeAllEmpties(slots: seq<Slot>)
    ensures forall i :: 0 <= i < |slots| ==> FreedUpTo(slots, NumGenerations)[i].None?
  {
    FreedUpToByRemainder(slots, NumGenerations);
  }

  /** Freeing all generations but the last keeps the last generation's slots and nulls the others. */
  lemma FreeAllButLastKeepsLast(slots: seq<Slot>)
    ensures forall i :: 0 <= i < |slots| ==>
              FreedUpTo(slots, NumGenerations - 1)[i]
              == if i % NumGenerations == NumGenerations - 1 then slots[i] else None
  {
    FreedUpToByRemainder(slots, NumGenerations - 1);
  }

  // ---------------------------------------------------------------------------
  // Loading

  /** The slots after the refill of `loadInterleavedLoaders`: every null slot gets a fresh loader. */
  function Refilled(slots: seq<Slot>): (r: seq<Slot>)
    ensures |r| == |slots|
  {
    seq(|slots|, k requires 0 <= k < |slots| => if slots[k].None? then Some([]) else slots[k])
  }

  /** A refill leaves no null slot, leaves every loader that survived as it was, and keeps slots well loaded. */
  lemma RefilledKeepsSurvivors(slots: seq<Slot>, classesPerLoader: int)
    requires AllWellLoaded(slots, classesPerLoader)
    ensures forall k :: 0 <= k < |slots| ==> Refilled(slots)[k].Some?
    ensures forall k :: 0 <= k < |slots| && slots[k].Some? ==> Refilled(slots)[k] == slots[k]
    ensures AllWellLoaded(Refilled(slots), classesPerLoader)
  {
    forall k | 0 <= k < |slots|
      ensures WellLoaded(Refilled(slots)[k], classesPerLoader)
    {
      if slots[k].None? {
        assert ClassNames(0) == [];
      }
    }
  }

  /** `toLoad` for a loader: `Integer.min(loads_per_step, num_classes_per_loader - loaded)`. */
  function ToLoad(names: seq<string>, loadsPerStep: int, classesPerLoader: int): int {
    Min(loadsPerStep, classesPerLoader - |names|)
  }

  /** A loader after one round: the next `toLoad` names after the ones it has, in order. */
  function Step(slot: Slot, loadsPerStep: int, classesPerLoader: int): Slot
    requires slot.Some?
  {
    var loaded := |slot.value|;
    Some(slot.value + NameRange(loaded, ToLoad(slot.value, loadsPerStep, classesPerLoader)))
  }

  /**
   * One round keeps a loader well loaded and never past the cap; it leaves a
   * full loader as it is and, with at least one load per step, adds a class
   * to every other.
   */
  lemma StepLoads(slot: Slot, loadsPerStep: int, classesPerLoader: int)
    requires slot.Some? && WellLoaded(slot, classesPerLoader)
    ensures var next := Step(slot, loadsPerStep, classesPerLoader);
            WellLoaded(next, classesPerLoader)
            && |next.value| == |slot.value| + Max(ToLoad(slot.value, loadsPerStep, classesPerLoader), 0)
            && (IsFull(slot, classesPerLoader) ==> next == slot)
            && (loadsPerStep >= 1 && !IsFull(slot, classesPerLoader) ==> |next.value| > |slot.value|)
  {
    var loaded := |slot.value|;
    var toLoad := ToLoad(slot.value, loadsPerStep, classesPerLoader);
    ClassNamesExtend(loaded, toLoad);
    if IsFull(slot, classesPerLoader) {
      assert NameRange(loaded, toLoad) == [];
    }
  }

  /** The slots after one pass of the loading loop over all loaders. */
  function Round(slots: seq<Slot>, loadsPerStep: int, classesPerLoader: int): (r: seq<Slot>)
    requires forall k :: 0 <= k < |slots| ==> slots[k].Some?
    ensures |r| == |slots|
  {
    seq(|slots|, k requires 0 <= k < |slots| => Step(slots[k], loadsPerStep, classesPerLoader))
  }

  /** Every loader has loaded at least n classes. */
  predicate LoadedAtLeast(slots: seq<Slot>, n: int) {
    forall k :: 0 <= k < |slots| ==> slots[k].Some? && |slots[k].value| >= n
  }

  /**
   * A round keeps every slot well loaded, and with at least one load per
   * step every loader has at least `min(cap, r)` classes after r rounds;
   * so the loaders are all full after at most `cap` rounds.
   */
  lemma RoundLoads(slots: seq<Slot>, loadsPerStep: int, classesPerLoader: int, rounds: nat)
    requires AllWellLoaded(slots, classesPerLoader)
    requires LoadedAtLeast(slots, Min(Max(classesPerLoader, 0), rounds))
    requires loadsPerStep >= 1 || classesPerLoader <= 0
    ensures var next := Round(slots, loadsPerStep, classesPerLoader);
            AllWellLoaded(next, classesPerLoader)
            && LoadedAtLeast(next, Min(Max(classesPerLoader, 0), rounds + 1))
            && (!AllFull(next, classesPerLoader) ==> rounds + 1 < classesPerLoader)
  {
    var next := Round(slots, loadsPerStep, classesPerLoader);
    forall k | 0 <= k < |slots|
      ensures WellLoaded(next[k], classesPerLoader)
      ensures |next[k].value| >= Min(Max(classesPerLoader, 0), rounds + 1)
    {
      StepLoads(slots[k], loadsPerStep, classesPerLoader);
    }
  }

  /** When all loaders are full, each holds exactly `myclass_0 .. myclass_{cap-1}`. */
  lemma FullSlots(slots: seq<Slot>, classesPerLoader: int)
    requires AllWellLoaded(slots, classesPerLoader) && AllFull(slots, classesPerLoader)
    ensures forall k :: 0 <= k < |slots| ==> slots[k] == Some(ClassNames(classesPerLoader))
  {
    forall k | 0 <= k < |slots|
      ensures slots[k] == Some(ClassNames(classesPerLoader))
    {
      FullSlot(slots[k], classesPerLoader);
    }
  }

  /**
   * The names the loaders load are the names `generateClasses` compiled, in
   * the same order: `myclass_0 .. myclass_{n-1}` for n classes per loader.
   */
  lemma LoadedClassesWereGenerated(classesPerLoader: int, sizeFactor: int, maxAbsDeviation: int, draws: seq<int>)
    requires IsInt(sizeFactor) && IsInt(maxAbsDeviation) && AreDeviationDraws(maxAbsDeviation, draws)
    requires classesPerLoader <= |draws|
    requires CreatedClasses(classesPerLoader, sizeFactor, maxAbsDeviation, draws).Ok?
    ensures var classes := CreatedClasses(classesPerLoader, sizeFactor, maxAbsDeviation, draws).value;
            |classes| == |ClassNames(classesPerLoader)|
            && forall j :: 0 <= j < |classes| ==> classes[j].name == ClassNames(classesPerLoader)[j]
  {
    CreatedClassesAre(classesPerLoader, sizeFactor, maxAbsDeviation, draws);
  }

  /** A round keeps every loader well loaded, whatever `loads_per_step` is. */
  lemma RoundKeepsWellLoaded(slots: seq<Slot>, loadsPerStep: int, classesPerLoader: int)
    requires forall k :: 0 <= k < |slots| ==> slots[k].Some?
    requires AllWellLoaded(slots, classesPerLoader)
    ensures AllWellLoaded(Round(slots, loadsPerStep, classesPerLoader), classesPerLoader)
  {
    forall k | 0 <= k < |slots|
      ensures WellLoaded(Round(slots, loadsPerStep, classesPerLoader)[k], classesPerLoader)
    {
      StepLoads(slots[k], loadsPerStep, classesPerLoader);
    }
  }

  /** Loading into one loader keeps every slot well loaded. */
  lemma StepKeepsWellLoaded(slots: seq<Slot>, k: int, loadsPerStep: int, classesPerLoader: int)
    requires 0 <= k < |slots| && slots[k].Some?
    requires AllWellLoaded(slots, classesPerLoader)
    ensures AllWellLoaded(slots[k := Step(slots[k], loadsPerStep, classesPerLoader)], classesPerLoader)
  {
    StepLoads(slots[k], loadsPerStep, classesPerLoader);
  }

  // ---------------------------------------------------------------------------
  // The clamps of `call`

  /** `loads_per_step` after `Integer.max(1, ·)` and `Integer.min(num_classes_per_loader, ·)`. */
  function ClampLoadsPerStep(raw: int, classesPerLoader: int): (r: int)
    ensures classesPerLoader >= 1 ==> 1 <= r <= classesPerLoader
    ensures classesPerLoader < 1 ==> r == classesPerLoader
    ensures 1 <= raw <= classesPerLoader ==> r == raw
    ensures raw < 1 && classesPerLoader >= 1 ==> r == 1
    ensures raw > classesPerLoader ==> r == classesPerLoader
  {
    Min(classesPerLoader, Max(1, raw))
  }

  /** `repeat_cycles` after `Integer.max(1, ·)` and `Integer.min(100, ·)`. */
  function ClampRepeatCycles(raw: int): (r: int)
    ensures 1 <= r <= 100
    ensures 1 <= raw <= 100 ==> r == raw
    ensures raw < 1 ==> r == 1
    ensures raw > 100 ==> r == 100
  {
    Min(100, Max(1, raw))
  }

  /** The repro: its options, its clamped settings and its array of loader slots. */
  class SmallLoadersTest {
    var numLoadersPerGeneration: int
    var numClassesPerLoader: int
    var loadsPerStep: int
    var classSizeFactor: int
    var repeatCycles: int
    var loaders: array<Slot>

    /** The fields are Java `int`s and every slot is null or well loaded. */
    predicate Valid()
      reads this, loaders
    {
      IsInt(numLoadersPerGeneration) && IsInt(numClassesPerLoader) && IsInt(loadsPerStep)
      && IsInt(classSizeFactor) && IsInt(repeatCycles)
      && AllWellLoaded(loaders[..], numClassesPerLoader)
    }

    /** `num_loaders_per_generation * num_generations`, in `int` arithmetic. */
    function TotalLoaders(): (r: int)
      reads this
      ensures IsInt(r)
      ensures IsInt(numLoadersPerGeneration * NumGenerations) ==> r == numLoadersPerGeneration * NumGenerations
    {
      Wrap(numLoadersPerGeneration * NumGenerations)
    }

    /** The options as parsed, with the field defaults; no array is allocated yet. */
    constructor (numLoaders: int, numClasses: int)
      requires IsInt(numLoaders) && IsInt(numClasses)
      ensures Valid()
      ensures numLoadersPerGeneration == numLoaders && numClassesPerLoader == numClasses
      ensures loadsPerStep == 0 && classSizeFactor == 10 && repeatCycles == 0
      ensures fresh(loaders) && loaders.Length == 0
    {
      numLoadersPerGeneration := numLoaders;
      numClassesPerLoader := numClasses;
      loadsPerStep := 0;
      classSizeFactor := 10;
      repeatCycles := 0;
      loaders := new Slot[0];
    }

    /** `freeGeneration(gen)`: null the slots gen, gen + 10, gen + 20, ... */
    method FreeGeneration(gen: int)
      requires 0 <= gen
      modifies loaders
      ensures loaders[..] == Freed(old(loaders[..]), gen)
      ensures old(Valid()) ==> Valid()
    {
      ghost var before := loaders[..];
      var i := gen;
      while i < loaders.Length
        invariant gen <= i && (i - gen) % NumGenerations == 0
        invariant forall k :: 0 <= k < loaders.Length ==>
                    loaders[k] == if k < i && InGeneration(k, gen) then None else old(loaders[k])
        decreases loaders.Length - i
      {
        loaders[i] := None;
        i := i + NumGenerations;
      }
      if AllWellLoaded(before, numClassesPerLoader) {
        FreedKeepsWellLoaded(before, gen, numClassesPerLoader);
      }
    }

    /** `fullyLoaded()`: every slot holds a loader with at least `num_classes_per_loader` classes. */
    method FullyLoaded() returns (b: bool)
      ensures b == AllFull(loaders[..], numClassesPerLoader)
    {
      var n := 0;
      while n < loaders.Length
        invariant 0 <= n <= loaders.Length
        invariant forall m :: 0 <= m < n ==> IsFull(loaders[m], numClassesPerLoader)
      {
        if loaders[n].None? || |loaders[n].value| < numClassesPerLoader {
          return false;
        }
        n := n + 1;
      }
      return true;
    }

    /** The refill loop of `loadInterleavedLoaders`: a fresh loader in every null slot. */
    method Refill()
      requires loaders.Length == TotalLoaders()
      modifies loaders
      ensures loaders[..] == Refilled(old(loaders[..]))
      ensures old(Valid()) ==> Valid()
    {
      ghost var before := loaders[..];
      var totalLoaders := Wrap(numLoadersPerGeneration * NumGenerations);
      var loader := 0;
      while loader < totalLoaders
        invariant 0 <= loader <= loaders.Length
        invariant forall k :: 0 <= k < loaders.Length ==>
                    loaders[k] == if k < loader then Refilled(old(loaders[..]))[k] else old(loaders[k])
      {
        if loaders[loader].None? {
          loaders[loader] := Some([]);
        }
        loader := loader + 1;
      }
      if AllWellLoaded(before, numClassesPerLoader) {
        RefilledKeepsSurvivors(before, numClassesPerLoader);
      }
    }

    /** The innermost loop: loader k loads the next `toLoad` classes, one `Class.forName` at a time. */
    method LoadClasses(k: int)
      requires 0 <= k < loaders.Length && loaders[k].Some?
      requires IsInt(numClassesPerLoader) && |loaders[k].value| <= Max(numClassesPerLoader, 0)
      modifies loaders
      ensures loaders[k] == Step(old(loaders[k]), loadsPerStep, numClassesPerLoader)
      ensures forall m :: 0 <= m < loaders.Length && m != k ==> loaders[m] == old(loaders[m])
      ensures old(Valid()) ==> Valid()
    {
      ghost var before := loaders[..];
      var names := loaders[k].value;
      var loaded := |names|;
      // The loader holds at most max(cap, 0) names, so the `int` subtraction cannot wrap.
      assert IsInt(numClassesPerLoader - loaded);
      var toLoad := Min(loadsPerStep, numClassesPerLoader - loaded);
      var nclass := 0;
      assert names + NameRange(loaded, 0) == names;
      while nclass < toLoad
        invariant 0 <= nclass <= Max(toLoad, 0)
        invariant loaders[k] == Some(names + NameRange(loaded, nclass))
        invariant forall m :: 0 <= m < loaders.Length && m != k ==> loaders[m] == old(loaders[m])
      {
        assert NameRange(loaded, nclass + 1) == NameRange(loaded, nclass) + [NameClass(loaded + nclass)];
        assert names + NameRange(loaded, nclass + 1) == names + NameRange(loaded, nclass) + [NameClass(loaded + nclass)];
        loaders[k] := Some(loaders[k].value + [NameClass(loaded + nclass)]);
        nclass := nclass + 1;
      }
      assert loaders[..] == before[k := loaders[k]];
      if AllWellLoaded(before, numClassesPerLoader) {
        StepKeepsWellLoaded(before, k, loadsPerStep, numClassesPerLoader);
      }
    }

    /** One pass of the loading loop: every loader loads its next classes. */
    method LoadRound()
      requires loaders.Length == TotalLoaders()
      requires forall k :: 0 <= k < loaders.Length ==> loaders[k].Some?
      requires IsInt(numClassesPerLoader) && AllWellLoaded(loaders[..], numClassesPerLoader)
      modifies loaders
      ensures loaders[..] == Round(old(loaders[..]), loadsPerStep, numClassesPerLoader)
      ensures old(Valid()) ==> Valid()
    {
      ghost var before := loaders[..];
      var totalLoaders := Wrap(numLoadersPerGeneration * NumGenerations);
      var loader := 0;
      while loader < totalLoaders
        invariant 0 <= loader <= loaders.Length
        invariant forall k :: 0 <= k < loaders.Length ==>
                    loaders[k] == if k < loader then Step(old(loaders[k]), loadsPerStep, numClassesPerLoader)
                                  else old(loaders[k])
      {
        assert loaders[loader] == before[loader];
        LoadClasses(loader);
        loader := loader + 1;
      }
      if AllWellLoaded(before, numClassesPerLoader) {
        RoundKeepsWellLoaded(before, loadsPerStep, numClassesPerLoader);
      }
    }

    /**
     * `loadInterleavedLoaders()`: refill the null slots, then load in rounds
     * until `fullyLoaded()`. It ends, with at least one load per step, with
     * every loader holding `myclass_0 .. myclass_{n-1}` for n classes per loader;
     * a loader left over full from the last wave is not touched.
     */
    method LoadInterleavedLoaders()
      requires Valid() && loaders.Length == TotalLoaders()
      requires loadsPerStep >= 1 || numClassesPerLoader <= 0
      modifies loaders
      ensures Valid()
      ensures forall k :: 0 <= k < loaders.Length ==> loaders[k] == Some(ClassNames(numClassesPerLoader))
      ensures forall k :: 0 <= k < loaders.Length && IsFull(old(loaders[k]), numClassesPerLoader) ==>
                loaders[k] == old(loaders[k])
    {
      ghost var initial := loaders[..];
      RefilledKeepsSurvivors(loaders[..], numClassesPerLoader);
      Refill();
      var done := false;
      ghost var rounds := 0;
      while !done
        invariant Valid()
        invariant forall k :: 0 <= k < loaders.Length ==> loaders[k].Some?
        invariant LoadedAtLeast(loaders[..], Min(Max(numClassesPerLoader, 0), rounds))
        invariant 0 <= rounds && (!done ==> rounds <= Max(numClassesPerLoader, 0))
        invariant done ==> AllFull(loaders[..], numClassesPerLoader)
        decreases if done then 0 else Max(numClassesPerLoader, 0) + 1 - rounds
      {
        RoundLoads(loaders[..], loadsPerStep, numClassesPerLoader, rounds);
        LoadRound();
        rounds := rounds + 1;
        done := FullyLoaded();
      }
      FullSlots(loaders[..], numClassesPerLoader);
      forall k | 0 <= k < loaders.Length && IsFull(initial[k], numClassesPerLoader)
        ensures loaders[k] == initial[k]
      {
        FullSlot(initial[k], numClassesPerLoader);
      }
    }
    /** One cycle of `call`: load all loaders, then free every generation but the last. */
    method Cycle()
      requires Valid() && loaders.Length == TotalLoaders()
      requires loadsPerStep >= 1 || numClassesPerLoader <= 0
      modifies loaders
      ensures Valid()
      ensures forall k :: 0 <= k < loaders.Length ==>
                loaders[k] == if k % NumGenerations == NumGenerations - 1
                              then Some(ClassNames(numClassesPerLoader)) else None
    {
      LoadInterleavedLoaders();
      ghost var loaded := loaders[..];
      assert forall k :: 0 <= k < |loaded| ==> loaded[k] == Some(ClassNames(numClassesPerLoader));
      var i := 0;
      while i < NumGenerations - 1
        invariant 0 <= i <= NumGenerations - 1
        invariant Valid()
        invariant loaders[..] == FreedUpTo(loaded, i)
      {
        FreeGeneration(i);
        i := i + 1;
      }
      FreeAllButLastKeepsLast(loaded);
      forall k | 0 <= k < loaders.Length
        ensures loaders[k] == if k % NumGenerations == NumGenerations - 1
                              then Some(ClassNames(numClassesPerLoader)) else None
      {
        assert loaders[k] == FreedUpTo(loaded, NumGenerations - 1)[k];
        assert loaded[k] == Some(ClassNames(numClassesPerLoader));
      }
    }

    /**
     * The cycles of `call`: `repeat_cycles` times, load all loaders and free
     * every generation but the last. Afterwards, when there was a cycle, the
     * last generation's loaders are full and every other slot is null.
     */
    method RunCycles()
      requires Valid() && loaders.Length == TotalLoaders()
      requires loadsPerStep >= 1 || numClassesPerLoader <= 0
      modifies loaders
      ensures Valid()
      ensures repeatCycles <= 0 ==> loaders[..] == old(loaders[..])
      ensures repeatCycles > 0 ==>
                forall k :: 0 <= k < loaders.Length ==>
                  loaders[k] == if k % NumGenerations == NumGenerations - 1
                                then Some(ClassNames(numClassesPerLoader)) else None
    {
      var cycle := 0;
      while cycle < repeatCycles
        invariant 0 <= cycle <= Max(repeatCycles, 0)
        invariant Valid()
        invariant forall k :: 0 <= k < loaders.Length ==>
                    if cycle == 0 then loaders[k] == old(loaders[k])
                    else loaders[k] == if k % NumGenerations == NumGenerations - 1
                                       then Some(ClassNames(numClassesPerLoader)) else None
      {
        Cycle();
        cycle := cycle + 1;
      }
    }

    /** The end of `call`: free every generation, which nulls every slot. */
    method FreeAll()
      modifies loaders
      ensures old(Valid()) ==> Valid()
      ensures forall k :: 0 <= k < loaders.Length ==> loaders[k].None?
    {
      ghost var before := loaders[..];
      var i := 0;
      while i < NumGenerations
        invariant 0 <= i <= NumGenerations
        invariant loaders[..] == FreedUpTo(before, i)
      {
        FreeGeneration(i);
        i := i + 1;
      }
      FreeAllEmpties(before);
    }

    /**
     * `call()` without its output, waits, garbage collections and timing:
     * clamp the settings, allocate the slots, generate the classes, run the
     * load-and-free cycles, then free every generation. `rawLoadsPerStep` is
     * `(int)(num_classes_per_loader * interleave)` and `maxAbsDeviation` is
     * `(int)(class_size_factor * wiggle)`, with one draw per class.
     */
    method Call(rawLoadsPerStep: int, maxAbsDeviation: int, draws: seq<int>) returns (r: Result<int, Exception>)
      requires Valid()
      requires IsInt(rawLoadsPerStep) && IsInt(maxAbsDeviation)
      requires numClassesPerLoader <= |draws| && AreDeviationDraws(maxAbsDeviation, draws)
      modifies this, loaders
      ensures Valid()
      ensures numLoadersPerGeneration == old(numLoadersPerGeneration)
      ensures numClassesPerLoader == old(numClassesPerLoader)
      ensures classSizeFactor == old(classSizeFactor)
      ensures loadsPerStep == ClampLoadsPerStep(rawLoadsPerStep, numClassesPerLoader)
      ensures repeatCycles == ClampRepeatCycles(old(repeatCycles))
      ensures r.Err? <==> TotalLoaders() < 0 || (numClassesPerLoader >= 1 && maxAbsDeviation >= 0x4000_0000)
      ensures r.Err? ==> r.error == if TotalLoaders() < 0 then NegativeArraySizeException else IllegalArgumentException
      ensures r.Ok? ==> r.value == 0 && loaders.Length == TotalLoaders()
      ensures r.Ok? ==> forall k :: 0 <= k < loaders.Length ==> loaders[k].None?
      ensures TotalLoaders() < 0 ==> loaders == old(loaders) && loaders[..] == old(loaders[..])
      ensures TotalLoaders() >= 0 ==> fresh(loaders) && loaders.Length == TotalLoaders()
      ensures r.Err? && TotalLoaders() >= 0 ==> forall k :: 0 <= k < loaders.Length ==> loaders[k].None?
    {
      loadsPerStep := rawLoadsPerStep;
      loadsPerStep := Max(1, loadsPerStep);
      loadsPerStep := Min(numClassesPerLoader, loadsPerStep);
      repeatCycles := Max(1, repeatCycles);
      repeatCycles := Min(100, repeatCycles);

      var total := Wrap(numLoadersPerGeneration * NumGenerations);
      if total < 0 {
        return Err(NegativeArraySizeException);
      }
      loaders := new Slot[total](_ => None);

      CreatedClassesFail(numClassesPerLoader, classSizeFactor, maxAbsDeviation, draws);
      var generated, sources := GenerateClasses(numClassesPerLoader, classSizeFactor, maxAbsDeviation, draws);
      if generated.Err? {
        return Err(generated.error);
      }

      RunCycles();
      FreeAll();
      return Ok(0);
    }
  }
}
