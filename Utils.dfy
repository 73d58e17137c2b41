/**
 * The source-generation helpers of the metaspace repro (`Utils`): class names,
 * the random jitter of a class size, the text of a generated class and the
 * loop that generates one class per index.
 *
 * Randomness is not modelled: every `rand.nextInt(bound)` becomes a `draw`
 * parameter that lies in `[0, bound)`. Compiling the generated text is not
 * modelled either: a generated class is the name and the source text that
 * would be handed to the in-memory compiler.
 */
module Utils {
  import opened Wrappers
  import opened JavaLang

  // ---------------------------------------------------------------------------
  // Class names

  const ClassNamePrefix: string := "myclass_"

  /** `nameClass(number)`: the prefix followed by the decimal rendering of the number. */
  function NameClass(number: int): (name: string)
    ensures |ClassNamePrefix| < |name| && name[..|ClassNamePrefix|] == ClassNamePrefix
    ensures name[|ClassNamePrefix|..] == IntToString(number)
  {
    ClassNamePrefix + IntToString(number)
  }

  /** Distinct numbers give distinct class names. */
  lemma NameClassInjective(a: int, b: int)
    requires NameClass(a) == NameClass(b)
    ensures a == b
  {
    IntToStringInjective(a, b);
  }

  // ---------------------------------------------------------------------------
  // Size jitter

  /** The bound `(max_abs_deviation * 2) + 1` that `fluctuate` hands to `Random.nextInt`, in `int` arithmetic. */
  function DeviationBound(maxAbsDeviation: int): int {
    Wrap(maxAbsDeviation * 2 + 1)
  }

  /** A value `rand.nextInt(bound)` can return. */
  predicate IsDraw(draw: int, bound: int) {
    0 <= draw < bound
  }

  /** What `fluctuate` asks of the random number generator: a value below the bound whenever it draws one. */
  predicate IsDeviationDraw(maxAbsDeviation: int, draw: int) {
    maxAbsDeviation >= 1 && DeviationBound(maxAbsDeviation) > 0 ==> IsDraw(draw, DeviationBound(maxAbsDeviation))
  }

  /**
   * `fluctuate(n, wiggle)`, given `max_abs_deviation == (int)(n * wiggle)` and the
   * value `draw` of `rand.nextInt`. A deviation of 2^30 or more overflows the bound,
   * and `nextInt` then throws.
   */
  function Fluctuate(n: int, maxAbsDeviation: int, draw: int): (r: Result<int, Exception>)
    requires IsInt(n) && IsInt(maxAbsDeviation)
    requires IsDeviationDraw(maxAbsDeviation, draw)
    ensures r.Err? <==> maxAbsDeviation >= 0x4000_0000
    ensures r.Err? ==> r.error == IllegalArgumentException
    ensures r.Ok? ==> IsInt(r.value)
    ensures maxAbsDeviation < 1 ==> r == Ok(n)
    ensures 1 <= maxAbsDeviation < 0x4000_0000 && IsInt(n - maxAbsDeviation) && IsInt(n + maxAbsDeviation)
            ==> n - maxAbsDeviation <= r.value <= n + maxAbsDeviation
  {
    if maxAbsDeviation >= 1 then
      var bound := DeviationBound(maxAbsDeviation);
      if bound <= 0 then Err(IllegalArgumentException)
      else Ok(Wrap(n + (draw - maxAbsDeviation)))
    else
      Ok(n)
  }

  /** Every value of the jitter window is the outcome of some draw. */
  lemma FluctuateReachesWindow(n: int, maxAbsDeviation: int, v: int)
    requires 1 <= maxAbsDeviation < 0x4000_0000
    requires IsInt(n - maxAbsDeviation) && IsInt(n + maxAbsDeviation)
    requires n - maxAbsDeviation <= v <= n + maxAbsDeviation
    ensures IsDeviationDraw(maxAbsDeviation, v - n + maxAbsDeviation)
    ensures Fluctuate(n, maxAbsDeviation, v - n + maxAbsDeviation) == Ok(v)
  {
    assert DeviationBound(maxAbsDeviation) == maxAbsDeviation * 2 + 1;
  }

  // ---------------------------------------------------------------------------
  // The text of a generated class

  /**
   * One string handed to the builder's `append` in `makeRandomSource`, by kind;
   * `Render` gives its characters.
   */
  datatype Line =
    | ClassStart(name: string) // the header, with the class name or its placeholder
    | IntField(i: int)         // field `i<i>`
    | StringField(i: int)      // field `s<i>`
    | ByteFieldStart(i: int)   // field `b<i>`, up to its initialiser's brace
    | ByteEntry(j: int)        // entry j of a byte array initialiser
    | ByteFieldEnd             // the last entry and the end of a byte array initialiser
    | IntGetter(i: int)        // getter `get_i<i>`
    | StringGetter(i: int)     // getter `get_s<i>`
    | ByteGetter(i: int)       // getter `get_b<i>`
    | ClassEnd                 // the trailer

  /** The string each `append` call of `makeRandomSource` passes, with `int` arithmetic for `i * 3`. */
  function Render(line: Line): string {
    match line
    case ClassStart(name) => "public class " + name + " {\n"
    case IntField(i) => "public int i" + IntToString(i) + " = " + IntToString(Wrap(i * 3)) + ";\n"
    case StringField(i) => "public String s" + IntToString(i) + " = \"hallo" + IntToString(i) + "\";\n"
    case ByteFieldStart(i) => "public byte[] b" + IntToString(i) + " = new byte[] {"
    case ByteEntry(j) => "0x" + ToHexString(j % 0x80) + ", "
    case ByteFieldEnd => "0x17};\n"
    case IntGetter(i) => "public int get_i" + IntToString(i) + "() { return i" + IntToString(i) + "; }\n"
    case StringGetter(i) => "public String get_s" + IntToString(i) + "() { return s" + IntToString(i) + "; }\n"
    case ByteGetter(i) => "public byte[] get_b" + IntToString(i) + "() { return b" + IntToString(i) + "; }\n"
    case ClassEnd => "};"
  }

  /** A StringBuilder, as the strings appended to it, in order. */
  type Builder = seq<Line>

  /** The builder's `toString()`: what was appended, concatenated. */
  function Text(lines: Builder): string {
    if |lines| == 0 then "" else Render(lines[0]) + Text(lines[1..])
  }

  /** The placeholder `createRandomClass` replaces with the class name. */
  const ClassNamePlaceholder: string := "CLASSNAME"

  /** Entries of each byte array: the guard `j < 10 + (j % 30)` first fails at 30. */
  const ByteArrayEntries: nat := 30

  /** The entries of every byte array initialiser, in order. */
  function ByteEntries(): Builder {
    seq(ByteArrayEntries, j => ByteEntry(j))
  }

  /** Lines appended for one field group: three fields, 30 byte entries and the array's end. */
  const FieldGroupLines: nat := 34

  /** The field group for index i: fields `i<i>`, `s<i>` and `b<i>`. */
  function FieldGroup(i: int): Builder {
    [IntField(i), StringField(i), ByteFieldStart(i)] + ByteEntries() + [ByteFieldEnd]
  }

  /** Lines appended for one getter group. */
  const GetterGroupLines: nat := 3

  /** The getter group for index i: `get_i<i>`, `get_s<i>` and `get_b<i>`. */
  function GetterGroup(i: int): Builder {
    [IntGetter(i), StringGetter(i), ByteGetter(i)]
  }

  /** The field groups for indices 0 .. n-1; none when n <= 0. */
  function Fields(n: int): Builder
    decreases n
  {
    if n <= 0 then [] else Fields(n - 1) + FieldGroup(n - 1)
  }

  /** The getter groups for indices 0 .. n-1; none when n <= 0. */
  function Getters(n: int): Builder
    decreases n
  {
    if n <= 0 then [] else Getters(n - 1) + GetterGroup(n - 1)
  }

  /** The lines after the header: the field groups, the getter groups and the trailer. */
  function Body(fieldCount: int, getterCount: int): Builder {
    Fields(fieldCount) + Getters(getterCount) + [ClassEnd]
  }

  /** The lines of the class `name` with the given numbers of field groups and getter groups. */
  function SourceLines(name: string, fieldCount: int, getterCount: int): Builder {
    [ClassStart(name)] + Body(fieldCount, getterCount)
  }

  /** The text `makeRandomSource` builds with `fieldCount` field groups and `getterCount` getter groups. */
  function SourceText(fieldCount: int, getterCount: int): string {
    Text(SourceLines(ClassNamePlaceholder, fieldCount, getterCount))
  }

  lemma AppendAssoc<T>(a: seq<T>, b: seq<T>, c: seq<T>)
    ensures (a + b) + c == a + (b + c)
  {
  }

  lemma SliceOfAppend<T>(a: seq<T>, b: seq<T>, lo: int, hi: int)
    requires 0 <= lo <= hi <= |a|
    ensures (a + b)[lo..hi] == a[lo..hi]
  {
  }

  /** Field group i occupies lines 34*i .. 34*i+33 of the field groups. */
  lemma {:induction false} FieldsLayout(n: int)
    ensures |Fields(n)| == FieldGroupLines * Max(n, 0)
    ensures forall i :: 0 <= i < n ==> Fields(n)[FieldGroupLines * i..FieldGroupLines * (i + 1)] == FieldGroup(i)
    decreases n
  {
    if n > 0 {
      FieldsLayout(n - 1);
      var prev := Fields(n - 1);
      forall i | 0 <= i < n
        ensures Fields(n)[FieldGroupLines * i..FieldGroupLines * (i + 1)] == FieldGroup(i)
      {
        if i < n - 1 {
          SliceOfAppend(prev, FieldGroup(n - 1), FieldGroupLines * i, FieldGroupLines * (i + 1));
        }
      }
    }
  }

  /** Getter group k occupies lines 3*k .. 3*k+2 of the getter groups. */
  lemma {:induction false} GettersLayout(n: int)
    ensures |Getters(n)| == GetterGroupLines * Max(n, 0)
    ensures forall k :: 0 <= k < n ==> Getters(n)[GetterGroupLines * k..GetterGroupLines * (k + 1)] == GetterGroup(k)
    decreases n
  {
    if n > 0 {
      GettersLayout(n - 1);
      var prev := Getters(n - 1);
      forall k | 0 <= k < n
        ensures Getters(n)[GetterGroupLines * k..GetterGroupLines * (k + 1)] == GetterGroup(k)
      {
        if k < n - 1 {
          SliceOfAppend(prev, GetterGroup(n - 1), GetterGroupLines * k, GetterGroupLines * (k + 1));
        }
      }
    }
  }

  /** Byte entry j, for j below 30, is `0x` and j in lower-case hexadecimal. */
  lemma ByteEntriesAre(j: int)
    requires 0 <= j < ByteArrayEntries
    ensures Render(ByteEntries()[j]) == "0x" + ToHexString(j) + ", "
  {
    assert ByteEntries()[j] == ByteEntry(j) && j % 0x80 == j;
  }

  /** The text starts with the first line appended. */
  lemma TextStartsWith(lines: Builder)
    requires |lines| > 0
    ensures |Render(lines[0])| <= |Text(lines)| && Text(lines)[..|Render(lines[0])|] == Render(lines[0])
  {
  }

  /** Appending a line appends its text. */
  lemma {:induction false} TextAppend(lines: Builder, last: Line)
    ensures Text(lines + [last]) == Text(lines) + Render(last)
    decreases |lines|
  {
    if |lines| > 0 {
      assert (lines + [last])[1..] == lines[1..] + [last];
      TextAppend(lines[1..], last);
    }
  }

  /** A character that no line contains is not in the text. */
  lemma {:induction false} TextExcludes(lines: Builder, c: char)
    requires forall k :: 0 <= k < |lines| ==> c !in Render(lines[k])
    ensures c !in Text(lines)
    decreases |lines|
  {
    if |lines| > 0 {
      TextExcludes(lines[1..], c);
    }
  }

  /**
   * `size_with_wiggle` in `makeRandomSource(size, wiggle)`, given
   * `spread == (int)(size * wiggle)` and, when spread is positive, the value
   * `offset` of `rand.nextInt(spread)`. As written, `Math.min(…, 1)` caps it at one.
   */
  function FieldCount(size: int, spread: int, offset: int): (r: int)
    requires IsInt(size) && IsInt(spread)
    requires spread > 0 ==> IsDraw(offset, spread)
    ensures IsInt(r)
    ensures spread <= 0 ==> r == size
    ensures spread > 0 ==> r <= 1
    ensures spread > 0 && IsInt(size + offset - spread / 2) ==> r == Min(size + offset - spread / 2, 1)
  {
    if spread > 0 then Min(Wrap(size + (offset - spread / 2)), 1) else size
  }

  /**
   * The inner loop of `makeRandomSource`: byte array entries are appended while
   * `j < 10 + (j % 30)`, a guard that first fails at j == 30.
   */
  method AppendByteArrayEntries(start: Builder) returns (bld: Builder)
    ensures bld == start + ByteEntries()
  {
    bld := start;
    var j := 0;
    while j < 10 + (j % 30)
      invariant 0 <= j <= ByteArrayEntries
      invariant bld == start + ByteEntries()[..j]
      decreases ByteArrayEntries - j
    {
      bld := bld + [ByteEntry(j)];
      j := j + 1;
    }
    assert ByteEntries()[..j] == ByteEntries();
  }

  /** One pass of the field loop of `makeRandomSource`: the fields `i<i>`, `s<i>` and `b<i>`. */
  method AppendFieldGroup(start: Builder, i: int) returns (bld: Builder)
    ensures bld == start + FieldGroup(i)
  {
    bld := start + [IntField(i)];
    bld := bld + [StringField(i)];
    bld := bld + [ByteFieldStart(i)];
    bld := AppendByteArrayEntries(bld);
    bld := bld + [ByteFieldEnd];
  }

  /** One pass of the getter loop of `makeRandomSource`: `get_i<i>`, `get_s<i>` and `get_b<i>`. */
  method AppendGetterGroup(start: Builder, i: int) returns (bld: Builder)
    ensures bld == start + GetterGroup(i)
  {
    bld := start + [IntGetter(i)];
    bld := bld + [StringGetter(i)];
    bld := bld + [ByteGetter(i)];
  }

  /**
   * The loops of `makeRandomSource`: the header, `fieldCount` field groups, each
   * with a 30-entry byte array, `getterCount` getter groups and the trailer,
   * appended to one builder.
   */
  method BuildSource(fieldCount: int, getterCount: int) returns (src: string)
    ensures src == SourceText(fieldCount, getterCount)
  {
    var bld: Builder := [ClassStart(ClassNamePlaceholder)];
    var i := 0;
    while i < fieldCount
      invariant 0 <= i <= Max(fieldCount, 0)
      invariant bld == [ClassStart(ClassNamePlaceholder)] + Fields(i)
    {
      AppendAssoc([ClassStart(ClassNamePlaceholder)], Fields(i), FieldGroup(i));
      bld := AppendFieldGroup(bld, i);
      i := i + 1;
    }
    assert Fields(i) == Fields(fieldCount);
    var afterFields := bld;
    i := 0;
    while i < getterCount
      invariant 0 <= i <= Max(getterCount, 0)
      invariant bld == afterFields + Getters(i)
    {
      AppendAssoc(afterFields, Getters(i), GetterGroup(i));
      bld := AppendGetterGroup(bld, i);
      i := i + 1;
    }
    assert Getters(i) == Getters(getterCount);
    AppendAssoc([ClassStart(ClassNamePlaceholder)], Fields(fieldCount), Getters(getterCount));
    AppendAssoc([ClassStart(ClassNamePlaceholder)], Fields(fieldCount) + Getters(getterCount), [ClassEnd]);
    bld := bld + [ClassEnd];
    src := Text(bld);
  }

  /**
   * `makeRandomSource(size, wiggle)`, as written: `size_with_wiggle` field groups
   * but `size` getter groups, between the header and the trailer.
   */
  method MakeRandomSource(size: int, spread: int, offset: int) returns (src: string)
    requires IsInt(size) && IsInt(spread)
    requires spread > 0 ==> IsDraw(offset, spread)
    ensures src == SourceText(FieldCount(size, spread, offset), size)
  {
    var sizeWithWiggle := FieldCount(size, spread, offset);
    src := BuildSource(sizeWithWiggle, size);
  }

  /** A generated text starts with the header line and ends with the trailer. */
  lemma SourceTextFrame(fieldCount: int, getterCount: int)
    ensures var src := SourceText(fieldCount, getterCount);
            var header := Render(ClassStart(ClassNamePlaceholder));
            |header| + |Render(ClassEnd)| <= |src| &&
            src[..|header|] == header && src[|src| - |Render(ClassEnd)|..] == Render(ClassEnd)
  {
    var lines := SourceLines(ClassNamePlaceholder, fieldCount, getterCount);
    var front := [ClassStart(ClassNamePlaceholder)] + (Fields(fieldCount) + Getters(getterCount));
    AppendAssoc([ClassStart(ClassNamePlaceholder)], Fields(fieldCount) + Getters(getterCount), [ClassEnd]);
    TextAppend(front, ClassEnd);
    TextStartsWith(front);
    TextStartsWith(lines);
  }

  // ---------------------------------------------------------------------------
  // The field count of a wiggled class

  /** A field declaration `i<i>`, `s<i>` or `b<i>`. */
  predicate IsField(line: Line) {
    line.IntField? || line.StringField? || line.ByteFieldStart?
  }

  /** A getter `get_i<i>`, `get_s<i>` or `get_b<i>`. */
  predicate IsGetter(line: Line) {
    line.IntGetter? || line.StringGetter? || line.ByteGetter?
  }

  /** The field declaration a getter returns. */
  function FieldOf(getter: Line): (field: Line)
    requires IsGetter(getter)
    ensures IsField(field) && field.i == getter.i
  {
    match getter
    case IntGetter(i) => IntField(i)
    case StringGetter(i) => StringField(i)
    case ByteGetter(i) => ByteFieldStart(i)
  }

  /** Every getter among the lines returns a field the lines declare. */
  predicate GettersHaveFields(lines: Builder) {
    forall k :: 0 <= k < |lines| && IsGetter(lines[k]) ==> FieldOf(lines[k]) in lines
  }

  /** A field group holds no getter, and its fields are those of index i. */
  lemma FieldGroupShape(i: int)
    ensures forall k :: 0 <= k < |FieldGroup(i)| ==>
              !IsGetter(FieldGroup(i)[k]) && (IsField(FieldGroup(i)[k]) ==> FieldGroup(i)[k].i == i)
  {
    var head := [IntField(i), StringField(i), ByteFieldStart(i)];
    forall k | 0 <= k < |FieldGroup(i)|
      ensures !IsGetter(FieldGroup(i)[k]) && (IsField(FieldGroup(i)[k]) ==> FieldGroup(i)[k].i == i)
    {
      if 3 <= k < 3 + ByteArrayEntries {
        assert FieldGroup(i)[k] == ByteEntries()[k - 3];
      }
    }
  }

  /** The field groups hold no getter, and declare fields of indices 0 .. n-1 only. */
  lemma {:induction false} FieldsShape(n: int)
    ensures forall k :: 0 <= k < |Fields(n)| ==>
              !IsGetter(Fields(n)[k]) && (IsField(Fields(n)[k]) ==> 0 <= Fields(n)[k].i < n)
    decreases n
  {
    if n > 0 {
      FieldsShape(n - 1);
      FieldGroupShape(n - 1);
      var front := Fields(n - 1);
      var group := FieldGroup(n - 1);
      forall k | 0 <= k < |Fields(n)|
        ensures !IsGetter(Fields(n)[k]) && (IsField(Fields(n)[k]) ==> 0 <= Fields(n)[k].i < n)
      {
        if k < |front| {
          assert Fields(n)[k] == front[k];
        } else {
          assert Fields(n)[k] == group[k - |front|];
        }
      }
    }
  }

  /** The field groups declare the fields `i<i>`, `s<i>` and `b<i>` of every index i below n. */
  lemma {:induction false} FieldsDeclare(n: int)
    ensures forall i :: 0 <= i < n ==>
              IntField(i) in Fields(n) && StringField(i) in Fields(n) && ByteFieldStart(i) in Fields(n)
    decreases n
  {
    if n > 0 {
      FieldsDeclare(n - 1);
      var front := Fields(n - 1);
      var group := FieldGroup(n - 1);
      assert group[0] == IntField(n - 1) && group[1] == StringField(n - 1) && group[2] == ByteFieldStart(n - 1);
      forall i | 0 <= i < n
        ensures IntField(i) in Fields(n) && StringField(i) in Fields(n) && ByteFieldStart(i) in Fields(n)
      {
        if i < n - 1 {
          assert IntField(i) in front && StringField(i) in front && ByteFieldStart(i) in front;
        }
      }
    }
  }

  /** The getter groups declare no field, hold getters of indices 0 .. n-1 only, and each of them. */
  lemma {:induction false} GettersReturn(n: int)
    ensures forall k :: 0 <= k < |Getters(n)| ==>
              !IsField(Getters(n)[k]) && (IsGetter(Getters(n)[k]) ==> 0 <= Getters(n)[k].i < n)
    ensures forall i :: 0 <= i < n ==> IntGetter(i) in Getters(n)
    decreases n
  {
    if n > 0 {
      GettersReturn(n - 1);
      var front := Getters(n - 1);
      forall k | 0 <= k < |Getters(n)|
        ensures !IsField(Getters(n)[k]) && (IsGetter(Getters(n)[k]) ==> 0 <= Getters(n)[k].i < n)
      {
        if k < |front| {
          assert Getters(n)[k] == front[k];
        } else {
          assert Getters(n)[k] == GetterGroup(n - 1)[k - |front|];
        }
      }
      assert GetterGroup(n - 1)[0] == IntGetter(n - 1);
    }
  }

  /** Line k of a class: the header, a line of the field groups, a line of the getter groups, or the trailer. */
  lemma SourceLinesAt(name: string, fieldCount: int, getterCount: int, k: int)
    requires 0 <= k < |SourceLines(name, fieldCount, getterCount)|
    ensures var fields := Fields(fieldCount);
            var getters := Getters(getterCount);
            |SourceLines(name, fieldCount, getterCount)| == |fields| + |getters| + 2 &&
            SourceLines(name, fieldCount, getterCount)[k]
            == if k == 0 then ClassStart(name)
               else if k <= |fields| then fields[k - 1]
               else if k <= |fields| + |getters| then getters[k - 1 - |fields|]
               else ClassEnd
  {
    var fields := Fields(fieldCount);
    var getters := Getters(getterCount);
    var lines := SourceLines(name, fieldCount, getterCount);
    if 0 < k <= |fields| {
      assert lines[k] == Body(fieldCount, getterCount)[k - 1] == (fields + getters)[k - 1];
    } else if |fields| < k <= |fields| + |getters| {
      assert lines[k] == Body(fieldCount, getterCount)[k - 1] == (fields + getters)[k - 1];
    }
  }

  /** The getter on line k, with no more getter groups than field groups, has its field declared. */
  lemma GetterHasField(name: string, fieldCount: int, getterCount: int, k: int)
    requires Max(getterCount, 0) <= Max(fieldCount, 0)
    requires 0 <= k < |SourceLines(name, fieldCount, getterCount)|
    requires IsGetter(SourceLines(name, fieldCount, getterCount)[k])
    ensures FieldOf(SourceLines(name, fieldCount, getterCount)[k]) in SourceLines(name, fieldCount, getterCount)
  {
    var fields := Fields(fieldCount);
    var getters := Getters(getterCount);
    FieldsShape(fieldCount);
    FieldsDeclare(fieldCount);
    GettersReturn(getterCount);
    SourceLinesAt(name, fieldCount, getterCount, k);
    var field := FieldOf(getters[k - 1 - |fields|]);
    assert field in fields;
    assert SourceLines(name, fieldCount, getterCount) == [ClassStart(name)] + fields + (getters + [ClassEnd]);
  }

  /** With no more getter groups than field groups, every getter's field is declared. */
  lemma GettersCovered(name: string, fieldCount: int, getterCount: int)
    requires Max(getterCount, 0) <= Max(fieldCount, 0)
    ensures GettersHaveFields(SourceLines(name, fieldCount, getterCount))
  {
    var lines := SourceLines(name, fieldCount, getterCount);
    forall k | 0 <= k < |lines| && IsGetter(lines[k])
      ensures FieldOf(lines[k]) in lines
    {
      GetterHasField(name, fieldCount, getterCount, k);
    }
  }

  /** With more getter groups than field groups, the last getter `get_i<g-1>` has no field. */
  lemma GettersUncovered(name: string, fieldCount: int, getterCount: int)
    requires Max(getterCount, 0) > Max(fieldCount, 0)
    ensures !GettersHaveFields(SourceLines(name, fieldCount, getterCount))
  {
    var lines := SourceLines(name, fieldCount, getterCount);
    var fields := Fields(fieldCount);
    var getters := Getters(getterCount);
    var g := getterCount - 1;
    GettersReturn(getterCount);
    var m :| 0 <= m < |getters| && getters[m] == IntGetter(g);
    SourceLinesAt(name, fieldCount, getterCount, 1 + |fields| + m);
    if IntField(g) in lines {
      var p :| 0 <= p < |lines| && lines[p] == IntField(g);
      FieldsShape(fieldCount);
      SourceLinesAt(name, fieldCount, getterCount, p);
      assert false;
    }
  }

  /**
   * The getters of a class all return fields it declares exactly when it has
   * no more getter groups than field groups.
   */
  lemma SourceGettersHaveFields(name: string, fieldCount: int, getterCount: int)
    ensures GettersHaveFields(SourceLines(name, fieldCount, getterCount))
            <==> Max(getterCount, 0) <= Max(fieldCount, 0)
  {
    if Max(getterCount, 0) <= Max(fieldCount, 0) {
      GettersCovered(name, fieldCount, getterCount);
    } else {
      GettersUncovered(name, fieldCount, getterCount);
    }
  }

  /**
   * As written, a positive spread leaves at most one field group, while the
   * getter loop still runs to `size`: from two groups on, getters return
   * fields the class does not declare.
   */
  lemma WiggleDropsFields(size: int, spread: int, offset: int)
    requires IsInt(size) && IsInt(spread) && IsDraw(offset, spread)
    requires size >= 2
    ensures FieldCount(size, spread, offset) <= 1
    ensures !GettersHaveFields(SourceLines(ClassNamePlaceholder, FieldCount(size, spread, offset), size))
  {
    SourceGettersHaveFields(ClassNamePlaceholder, FieldCount(size, spread, offset), size);
  }

  /** The smallest such input: size 2 and wiggle 1 give spread 2; draw 0 gives one field group and two getter groups. */
  lemma WiggleDropsFieldsExample()
    ensures FieldCount(2, 2, 0) == 1
    ensures SourceText(FieldCount(2, 2, 0), 2) == SourceText(1, 2)
    ensures !GettersHaveFields(SourceLines(ClassNamePlaceholder, 1, 2))
  {
    SourceGettersHaveFields(ClassNamePlaceholder, 1, 2);
  }

  /**
   * `size_with_wiggle` as evidently intended: `Math.max(…, 1)`, the jittered size
   * but at least one field group.
   */
  function IntendedFieldCount(size: int, spread: int, offset: int): (r: int)
    requires IsInt(size) && IsInt(spread)
    requires spread > 0 ==> IsDraw(offset, spread)
    ensures IsInt(r)
    ensures spread <= 0 ==> r == size
    ensures spread > 0 ==> r >= 1
    ensures spread > 0 && IsInt(size + offset - spread / 2) && size + offset - spread / 2 >= 1
            ==> size - spread / 2 <= r < size - spread / 2 + spread
  {
    if spread > 0 then Max(Wrap(size + (offset - spread / 2)), 1) else size
  }

  /** Without wiggle the intended count is the count as written. */
  lemma IntendedFieldCountAgrees(size: int, spread: int, offset: int)
    requires IsInt(size) && IsInt(spread) && spread <= 0
    ensures IntendedFieldCount(size, spread, offset) == FieldCount(size, spread, offset) == size
  {
  }

  /** The intended jitter reaches every size of its window that is at least one. */
  lemma IntendedFieldCountReachesWindow(size: int, spread: int, n: int)
    requires IsInt(size) && IsInt(spread) && spread > 0
    requires IsInt(size - spread / 2) && IsInt(size - spread / 2 + spread)
    requires 1 <= n && size - spread / 2 <= n < size - spread / 2 + spread
    ensures IsDraw(n - size + spread / 2, spread)
    ensures IntendedFieldCount(size, spread, n - size + spread / 2) == n
  {
  }

  /**
   * `makeRandomSource(size, wiggle)` as evidently intended: both loops run to
   * `size_with_wiggle`, so every getter returns a declared field.
   */
  method MakeRandomSourceIntended(size: int, spread: int, offset: int) returns (src: string)
    requires IsInt(size) && IsInt(spread)
    requires spread > 0 ==> IsDraw(offset, spread)
    ensures src == SourceText(IntendedFieldCount(size, spread, offset), IntendedFieldCount(size, spread, offset))
    ensures var n := IntendedFieldCount(size, spread, offset);
            GettersHaveFields(SourceLines(ClassNamePlaceholder, n, n))
  {
    var sizeWithWiggle := IntendedFieldCount(size, spread, offset);
    src := BuildSource(sizeWithWiggle, sizeWithWiggle);
    SourceGettersHaveFields(ClassNamePlaceholder, sizeWithWiggle, sizeWithWiggle);
  }

  // ---------------------------------------------------------------------------
  // Naming the class

  /**
   * `s.replaceAll(pattern, replacement)` for a pattern free of regular-expression
   * metacharacters and a replacement free of `$` and `\`: every occurrence of the
   * pattern, found from the left without overlaps, is replaced.
   */
  function ReplaceAll(s: string, pattern: string, replacement: string): string
    requires |pattern| > 0
    decreases |s|
  {
    if |s| < |pattern| then s
    else if s[..|pattern|] == pattern then replacement + ReplaceAll(s[|pattern|..], pattern, replacement)
    else [s[0]] + ReplaceAll(s[1..], pattern, replacement)
  }

  /** A replacement string `replaceAll` copies literally. */
  predicate IsLiteralReplacement(replacement: string) {
    '$' !in replacement && '\\' !in replacement
  }

  /** Text in which the pattern cannot start is kept as it is. */
  lemma {:induction false} ReplaceAllSkip(a: string, b: string, pattern: string, replacement: string)
    requires |pattern| > 0 && pattern[0] !in a
    ensures ReplaceAll(a + b, pattern, replacement) == a + ReplaceAll(b, pattern, replacement)
    decreases |a|
  {
    if |a| > 0 {
      var s := a + b;
      assert s[0] == a[0] != pattern[0];
      if |s| >= |pattern| {
        assert s[..|pattern|] != pattern;
        assert s[1..] == a[1..] + b;
        ReplaceAllSkip(a[1..], b, pattern, replacement);
        assert [a[0]] + (a[1..] + ReplaceAll(b, pattern, replacement)) == a + ReplaceAll(b, pattern, replacement);
      } else {
        assert ReplaceAll(b, pattern, replacement) == b;
      }
    } else {
      assert a + b == b;
    }
  }

  /** An occurrence of the pattern at the start is replaced. */
  lemma ReplaceAllMatch(b: string, pattern: string, replacement: string)
    requires |pattern| > 0
    ensures ReplaceAll(pattern + b, pattern, replacement) == replacement + ReplaceAll(b, pattern, replacement)
  {
    var s := pattern + b;
    assert s[..|pattern|] == pattern && s[|pattern|..] == b;
  }

  /** A text in which the pattern cannot start is kept as it is. */
  lemma ReplaceAllAbsent(s: string, pattern: string, replacement: string)
    requires |pattern| > 0 && pattern[0] !in s
    ensures ReplaceAll(s, pattern, replacement) == s
  {
    ReplaceAllSkip(s, "", pattern, replacement);
    assert s + "" == s;
  }

  /** A text with the pattern exactly once, at a known place, gets the replacement there and nowhere else. */
  lemma ReplaceAllOnce(before: string, after: string, pattern: string, replacement: string)
    requires |pattern| > 0 && pattern[0] !in before && pattern[0] !in after
    ensures ReplaceAll(before + pattern + after, pattern, replacement) == before + replacement + after
  {
    assert before + pattern + after == before + (pattern + after);
    ReplaceAllSkip(before, pattern + after, pattern, replacement);
    ReplaceAllMatch(after, pattern, replacement);
    ReplaceAllAbsent(after, pattern, replacement);
    assert before + (replacement + after) == before + replacement + after;
  }

  /** The letter the placeholder starts with, which only the header contains. */
  const PlaceholderStart: char := 'C'

  lemma ExcludedFromThree(c: char, a: string, b: string, d: string)
    requires c !in a && c !in b && c !in d
    ensures c !in a + b + d
  {
  }

  lemma ExcludedFromFive(c: char, a: string, b: string, d: string, e: string, f: string)
    requires c !in a && c !in b && c !in d && c !in e && c !in f
    ensures c !in a + b + d + e + f
  {
    ExcludedFromThree(c, a, b, d);
    ExcludedFromThree(c, a + b + d, e, f);
  }

  /** No line but the header contains the placeholder's first letter. */
  lemma RenderPlaceholderFree(line: Line)
    requires !line.ClassStart?
    ensures PlaceholderStart !in Render(line)
  {
    match line
    case IntField(i) =>
      ExcludedFromFive(PlaceholderStart, "public int i", IntToString(i), " = ", IntToString(Wrap(i * 3)), ";\n");
    case StringField(i) =>
      ExcludedFromFive(PlaceholderStart, "public String s", IntToString(i), " = \"hallo", IntToString(i), "\";\n");
    case ByteFieldStart(i) =>
      ExcludedFromThree(PlaceholderStart, "public byte[] b", IntToString(i), " = new byte[] {");
    case ByteEntry(j) =>
      ExcludedFromThree(PlaceholderStart, "0x", ToHexString(j % 0x80), ", ");
    case ByteFieldEnd =>
    case IntGetter(i) =>
      ExcludedFromFive(PlaceholderStart, "public int get_i", IntToString(i), "() { return i", IntToString(i), "; }\n");
    case StringGetter(i) =>
      ExcludedFromFive(PlaceholderStart, "public String get_s", IntToString(i), "() { return s", IntToString(i), "; }\n");
    case ByteGetter(i) =>
      ExcludedFromFive(PlaceholderStart, "public byte[] get_b", IntToString(i), "() { return b", IntToString(i), "; }\n");
    case ClassEnd =>
  }

  /** No header line among the given lines. */
  predicate NoClassStart(lines: Builder) {
    forall k :: 0 <= k < |lines| ==> !lines[k].ClassStart?
  }

  lemma {:induction false} FieldsHaveNoClassStart(n: int)
    ensures NoClassStart(Fields(n))
    decreases n
  {
    if n > 0 {
      FieldsHaveNoClassStart(n - 1);
      assert NoClassStart(FieldGroup(n - 1));
    }
  }

  lemma {:induction false} GettersHaveNoClassStart(n: int)
    ensures NoClassStart(Getters(n))
    decreases n
  {
    if n > 0 {
      GettersHaveNoClassStart(n - 1);
    }
  }

  /** The text of the class `name` with `size` field groups and `size` getter groups. */
  function ClassSource(name: string, size: int): string {
    Text(SourceLines(name, size, size))
  }

  /** The placeholder's first letter occurs nowhere after the header. */
  lemma BodyPlaceholderFree(fieldCount: int, getterCount: int)
    ensures PlaceholderStart !in Text(Body(fieldCount, getterCount))
  {
    var body := Body(fieldCount, getterCount);
    FieldsHaveNoClassStart(fieldCount);
    GettersHaveNoClassStart(getterCount);
    assert NoClassStart(body);
    forall k | 0 <= k < |body|
      ensures PlaceholderStart !in Render(body[k])
    {
      RenderPlaceholderFree(body[k]);
    }
    TextExcludes(body, PlaceholderStart);
  }

  /** Naming the header line, when nothing after it contains the placeholder. */
  lemma NameHeader(name: string, rest: string)
    requires PlaceholderStart !in rest
    ensures ReplaceAll(Render(ClassStart(ClassNamePlaceholder)) + rest, ClassNamePlaceholder, name)
         == Render(ClassStart(name)) + rest
  {
    AppendAssoc("public class " + ClassNamePlaceholder, " {\n", rest);
    AppendAssoc("public class " + name, " {\n", rest);
    ReplaceAllOnce("public class ", " {\n" + rest, ClassNamePlaceholder, name);
  }

  /**
   * `replaceAll("CLASSNAME", name)` on a generated text replaces the placeholder
   * in its first line and changes nothing else.
   */
  lemma NameSource(fieldCount: int, getterCount: int, name: string)
    ensures ReplaceAll(SourceText(fieldCount, getterCount), ClassNamePlaceholder, name)
         == Text(SourceLines(name, fieldCount, getterCount))
  {
    var body := Body(fieldCount, getterCount);
    var template := SourceLines(ClassNamePlaceholder, fieldCount, getterCount);
    var named := SourceLines(name, fieldCount, getterCount);
    assert template[0] == ClassStart(ClassNamePlaceholder) && template[1..] == body;
    assert named[0] == ClassStart(name) && named[1..] == body;
    BodyPlaceholderFree(fieldCount, getterCount);
    NameHeader(name, Text(body));
  }

  // ---------------------------------------------------------------------------
  // Generating classes

  /** A class handed to the in-memory compiler: its name and its number of field groups and of getter groups. */
  datatype GeneratedClass = GeneratedClass(name: string, size: int) {
    /** The text handed to the compiler for this class. */
    function Source(): string {
      ClassSource(name, size)
    }
  }

  /**
   * What `createRandomClass(name, sizeFactor, wiggle)` hands to the compiler when
   * `rand.nextInt` returns `draw`: the jittered size, kept at least one, and the
   * text of the class `name` with that many field and getter groups.
   */
  function CreatedClass(name: string, sizeFactor: int, maxAbsDeviation: int, draw: int): (r: Result<GeneratedClass, Exception>)
    requires IsInt(sizeFactor) && IsInt(maxAbsDeviation) && IsDeviationDraw(maxAbsDeviation, draw)
    ensures r.Err? <==> maxAbsDeviation >= 0x4000_0000
    ensures r.Err? ==> r.error == IllegalArgumentException
    ensures r.Ok? ==> r.value.name == name && r.value.size >= 1 && IsInt(r.value.size)
    ensures maxAbsDeviation < 1 ==> r.Ok? && r.value.size == Max(1, sizeFactor)
  {
    var fluctuated :- Fluctuate(sizeFactor, maxAbsDeviation, draw);
    var size := Max(1, fluctuated);
    Ok(GeneratedClass(name, size))
  }

  /**
   * `createRandomClass(classname, sizeFactor, wiggle)`: jitter the size, keep it at
   * least one, build the text without wiggle and put the class name into it;
   * `code` is the text handed to the compiler.
   */
  method CreateRandomClass(className: string, sizeFactor: int, maxAbsDeviation: int, draw: int)
    returns (r: Result<GeneratedClass, Exception>, code: string)
    requires IsLiteralReplacement(className)
    requires IsInt(sizeFactor) && IsInt(maxAbsDeviation) && IsDeviationDraw(maxAbsDeviation, draw)
    ensures r == CreatedClass(className, sizeFactor, maxAbsDeviation, draw)
    ensures r.Ok? ==> code == r.value.Source()
  {
    code := "";
    var fluctuated :- Fluctuate(sizeFactor, maxAbsDeviation, draw);
    var size := Max(1, fluctuated);
    var template := MakeRandomSource(size, 0, 0);
    NameSource(size, size, className);
    code := ReplaceAll(template, ClassNamePlaceholder, className);
    r := Ok(GeneratedClass(className, size));
  }

  /** Generated class names need no escaping in a replacement string. */
  lemma NameClassIsLiteral(number: int)
    ensures IsLiteralReplacement(NameClass(number))
  {
  }

  /** What `rand.nextInt` may return to the j-th call of `fluctuate`, for every j. */
  predicate AreDeviationDraws(maxAbsDeviation: int, draws: seq<int>) {
    forall j :: 0 <= j < |draws| ==> IsDeviationDraw(maxAbsDeviation, draws[j])
  }

  /** The classes `generateClasses` creates in its first `count` rounds, or the exception it stops with. */
  function CreatedClasses(count: int, sizeFactor: int, maxAbsDeviation: int, draws: seq<int>): Result<seq<GeneratedClass>, Exception>
    requires IsInt(sizeFactor) && IsInt(maxAbsDeviation) && AreDeviationDraws(maxAbsDeviation, draws)
    requires count <= |draws|
    decreases count
  {
    if count <= 0 then Ok([])
    else
      var earlier :- CreatedClasses(count - 1, sizeFactor, maxAbsDeviation, draws);
      var c :- CreatedClass(NameClass(count - 1), sizeFactor, maxAbsDeviation, draws[count - 1]);
      Ok(earlier + [c])
  }

  /** Generating `count` classes fails exactly when there is one to create and the deviation overflows. */
  lemma {:induction false} CreatedClassesFail(count: int, sizeFactor: int, maxAbsDeviation: int, draws: seq<int>)
    requires IsInt(sizeFactor) && IsInt(maxAbsDeviation) && AreDeviationDraws(maxAbsDeviation, draws)
    requires count <= |draws|
    ensures count >= 1 && maxAbsDeviation >= 0x4000_0000
            ==> CreatedClasses(count, sizeFactor, maxAbsDeviation, draws) == Err(IllegalArgumentException)
    ensures count < 1 || maxAbsDeviation < 0x4000_0000
            ==> CreatedClasses(count, sizeFactor, maxAbsDeviation, draws).Ok?
    decreases count
  {
    if count > 0 {
      CreatedClassesFail(count - 1, sizeFactor, maxAbsDeviation, draws);
    }
  }

  /** Otherwise class j is `myclass_<j>`, created with draw j, for every j below `count`. */
  lemma {:induction false} CreatedClassesAre(count: int, sizeFactor: int, maxAbsDeviation: int, draws: seq<int>)
    requires IsInt(sizeFactor) && IsInt(maxAbsDeviation) && AreDeviationDraws(maxAbsDeviation, draws)
    requires count <= |draws|
    requires CreatedClasses(count, sizeFactor, maxAbsDeviation, draws).Ok?
    ensures var classes := CreatedClasses(count, sizeFactor, maxAbsDeviation, draws).value;
            |classes| == Max(count, 0) &&
            forall j :: 0 <= j < |classes| ==> CreatedClass(NameClass(j), sizeFactor, maxAbsDeviation, draws[j]) == Ok(classes[j])
    decreases count
  {
    if count > 0 {
      var earlier := CreatedClasses(count - 1, sizeFactor, maxAbsDeviation, draws).value;
      var c := CreatedClass(NameClass(count - 1), sizeFactor, maxAbsDeviation, draws[count - 1]).value;
      CreatedClassesAre(count - 1, sizeFactor, maxAbsDeviation, draws);
      var classes := earlier + [c];
      assert CreatedClasses(count, sizeFactor, maxAbsDeviation, draws).value == classes;
      forall j | 0 <= j < |classes|
        ensures CreatedClass(NameClass(j), sizeFactor, maxAbsDeviation, draws[j]) == Ok(classes[j])
      {
        if j < |earlier| {
          assert classes[j] == earlier[j];
        }
      }
    }
  }

  /** The classes generated in one run have pairwise different names. */
  lemma CreatedClassNamesDistinct(count: int, sizeFactor: int, maxAbsDeviation: int, draws: seq<int>)
    requires IsInt(sizeFactor) && IsInt(maxAbsDeviation) && AreDeviationDraws(maxAbsDeviation, draws)
    requires count <= |draws|
    requires CreatedClasses(count, sizeFactor, maxAbsDeviation, draws).Ok?
    ensures var classes := CreatedClasses(count, sizeFactor, maxAbsDeviation, draws).value;
            forall j, k :: 0 <= j < k < |classes| ==> classes[j].name != classes[k].name
  {
    CreatedClassesAre(count, sizeFactor, maxAbsDeviation, draws);
    var classes := CreatedClasses(count, sizeFactor, maxAbsDeviation, draws).value;
    forall j, k | 0 <= j < k < |classes|
      ensures classes[j].name != classes[k].name
    {
      if classes[j].name == classes[k].name {
        NameClassInjective(j, k);
      }
    }
  }

  /** The texts of the given classes, in order: text j is the text of class j. */
  function Sources(classes: seq<GeneratedClass>): (r: seq<string>)
    ensures |r| == |classes|
    ensures forall j :: 0 <= j < |classes| ==> r[j] == classes[j].Source()
  {
    if |classes| == 0 then []
    else
      var front := classes[..|classes| - 1];
      assert forall j :: 0 <= j < |front| ==> front[j] == classes[j];
      Sources(front) + [classes[|classes| - 1].Source()]
  }

  /**
   * `generateClasses(num, sizeFactor, wiggle)`: class j is `myclass_<j>`, created
   * with the j-th draw, for j from 0 below `num`; `sources` are the texts handed
   * to the compiler, in order.
   */
  method GenerateClasses(num: int, sizeFactor: int, maxAbsDeviation: int, draws: seq<int>)
    returns (r: Result<seq<GeneratedClass>, Exception>, sources: seq<string>)
    requires IsInt(num) && IsInt(sizeFactor) && IsInt(maxAbsDeviation)
    requires num <= |draws| && AreDeviationDraws(maxAbsDeviation, draws)
    ensures r == CreatedClasses(num, sizeFactor, maxAbsDeviation, draws)
    ensures r.Ok? ==> sources == Sources(r.value)
    ensures r.Err? ==> sources == []
  {
    CreatedClassesFail(num, sizeFactor, maxAbsDeviation, draws);
    var classes: seq<GeneratedClass> := [];
    sources := [];
    var j := 0;
    while j < num
      invariant 0 <= j <= Max(num, 0)
      invariant CreatedClasses(j, sizeFactor, maxAbsDeviation, draws) == Ok(classes)
      invariant sources == Sources(classes)
      invariant j == 0 ==> sources == []
    {
      NameClassIsLiteral(j);
      var created, code := CreateRandomClass(NameClass(j), sizeFactor, maxAbsDeviation, draws[j]);
      if created.Err? {
        // The exception leaves the loop; it is the one the first creation throws.
        assert maxAbsDeviation >= 0x4000_0000 && created.error == IllegalArgumentException;
        assert CreatedClasses(num, sizeFactor, maxAbsDeviation, draws) == Err(IllegalArgumentException);
        // The first creation already throws, so nothing was compiled.
        CreatedClassesFail(j, sizeFactor, maxAbsDeviation, draws);
        assert j == 0;
        return created.PropagateFailure(), sources;
      }
      var c := created.value;
      assert (classes + [c])[..|classes|] == classes;
      classes := classes + [c];
      sources := sources + [code];
      j := j + 1;
    }
    if num < 0 {
      assert j == 0 && CreatedClasses(num, sizeFactor, maxAbsDeviation, draws) == Ok([]);
    } else {
      assert j == num;
    }
    r := Ok(classes);
  }
}
