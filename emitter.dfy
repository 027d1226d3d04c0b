/**
  The structured text emitter: `CppGenerator` writes indented lines to one
  output file and keeps the current indentation level; `Indenter` and
  `ClassScope` are its scope guards, whose `__enter__`/`__exit__` become the
  paired methods `Enter` and `Exit`.

  The output file is the sequence `lines` of the strings written to it, in
  order; each write is one whole line ending in a newline.
 */
module Emitter {
  import opened Optional

  /** Python's `unit * n`: `n` copies of `unit`, and the empty string when `n <= 0`. */
  function Repeat(unit: string, n: int): string
    decreases if n <= 0 then 0 else n
  {
    if n <= 0 then "" else unit + Repeat(unit, n - 1)
  }

  /** `n` copies of the unit are `n` times as long, and hold only the unit's characters. */
  lemma {:induction false} RepeatShape(unit: string, n: int)
    ensures |Repeat(unit, n)| == if n <= 0 then 0 else n * |unit|
    ensures forall i :: 0 <= i < |Repeat(unit, n)| ==> Repeat(unit, n)[i] in unit
    decreases if n <= 0 then 0 else n
  {
    if n > 0 {
      RepeatShape(unit, n - 1);
      var r := Repeat(unit, n);
      assert r == unit + Repeat(unit, n - 1);
      forall i | 0 <= i < |r|
        ensures r[i] in unit
      {
        if i >= |unit| {
          assert r[i] == Repeat(unit, n - 1)[i - |unit|];
        }
      }
    }
  }

  /** Copies of the unit add up: `a + b` copies are `a` copies followed by `b` copies. */
  lemma {:induction false} RepeatAdd(unit: string, a: nat, b: nat)
    ensures Repeat(unit, a + b) == Repeat(unit, a) + Repeat(unit, b)
    decreases a
  {
    if a > 0 {
      RepeatAdd(unit, a - 1, b);
      assert a + b - 1 == (a - 1) + b;
    }
  }

  /** The text written by `line(s)` at indentation `level`: the indent, the text, a newline. */
  function FormatLine(tab: string, level: int, text: string): string {
    Repeat(tab, level) + text + "\n"
  }

  /** The line written one level deeper starts with one more copy of the tab. */
  lemma FormatLineDeeper(tab: string, level: nat, text: string)
    ensures FormatLine(tab, level + 1, text) == tab + FormatLine(tab, level, text)
  {
    RepeatAdd(tab, 1, level);
    assert Repeat(tab, 1) == tab;
  }

  /** The divider written by `commentline`: `//` and 98 dashes, 100 characters in all. */
  function CommentRule(): (r: string)
    ensures |r| == 100
    ensures r[..2] == "//"
    ensures forall i :: 2 <= i < |r| ==> r[i] == '-'
  {
    var dashes := Repeat("-", 98);
    RepeatShape("-", 98);
    "//" + dashes
  }

  /** The header line of a class scope: `class N`, followed by ` : B` exactly when a base is given. */
  function ClassHeader(name: string, base: Option<string>): string {
    "class " + name + (if base.Some? then " : " + base.value else "")
  }

  /**
    `CppGenerator`: one output file, its indent unit (two spaces unless
    given) and the current indentation level, which starts at 0.
   */
  class CppGenerator {
    const filename: string
    const tab: string
    var indentationLevel: int
    var lines: seq<string>

    /** Opening the file for writing starts it empty. */
    constructor (filename: string, tab: string := "  ")
      ensures this.filename == filename && this.tab == tab
      ensures indentationLevel == 0 && lines == []
    {
      this.filename := filename;
      this.tab := tab;
      indentationLevel := 0;
      lines := [];
    }

    /** `indent(value)`: adds a signed amount to the level; nothing is written. */
    method Indent(value: int)
      modifies this
      ensures indentationLevel == old(indentationLevel) + value
      ensures lines == old(lines)
    {
      indentationLevel := indentationLevel + value;
    }

    /** `line(str)`: appends one line at the current level; earlier lines and the level stay. */
    method Line(str: string)
      modifies this
      ensures lines == old(lines) + [FormatLine(tab, indentationLevel, str)]
      ensures indentationLevel == old(indentationLevel)
    {
      lines := lines + [Repeat(tab, indentationLevel) + str + "\n"];
    }

    /**
      `public()`: writes the `public:` label one level shallower than the
      current level, puts the level back, and returns a guard that changes
      nothing on entry or exit.
     */
    method Public() returns (guard: Indenter)
      modifies this
      ensures lines == old(lines) + [FormatLine(tab, old(indentationLevel) - 1, "public:")]
      ensures indentationLevel == old(indentationLevel)
      ensures fresh(guard) && guard.generator == this
      ensures guard.beginAdd == 0 && guard.endAdd == 0
    {
      var shallower := new Indenter(this, -1, 1);
      shallower.Enter();
      Line("public:");
      shallower.Exit();
      guard := new Indenter(this, 0, 0);
    }

    /** `classdef(name, base)`: a class scope on this generator; nothing is written yet. */
    method Classdef(name: string, base: Option<string> := None) returns (scope: ClassScope)
      ensures fresh(scope)
      ensures scope.generator == this && scope.name == name && scope.base == base
    {
      scope := new ClassScope(name, base, this);
    }

    /** `commentline()`: appends the divider at the current level. */
    method CommentLine()
      modifies this
      ensures lines == old(lines) + [FormatLine(tab, indentationLevel, CommentRule())]
      ensures indentationLevel == old(indentationLevel)
    {
      Line("//" + Repeat("-", 98));
    }
  }

  /** `CppGeneratorIndenter`: adds `beginAdd` to the level on entry and `endAdd` on exit. */
  class Indenter {
    const generator: CppGenerator
    const beginAdd: int
    const endAdd: int

    constructor (generator: CppGenerator, beginAdd: int := 1, endAdd: int := -1)
      ensures this.generator == generator
      ensures this.beginAdd == beginAdd && this.endAdd == endAdd
    {
      this.generator := generator;
      this.beginAdd := beginAdd;
      this.endAdd := endAdd;
    }

    method Enter()
      modifies generator
      ensures generator.indentationLevel == old(generator.indentationLevel) + beginAdd
      ensures generator.lines == old(generator.lines)
    {
      generator.Indent(beginAdd);
    }

    method Exit()
      modifies generator
      ensures generator.indentationLevel == old(generator.indentationLevel) + endAdd
      ensures generator.lines == old(generator.lines)
    {
      generator.Indent(endAdd);
    }
  }

  /**
    `CppGeneratorClass`: on entry writes the class header and `{` at the
    outer level and goes one level deeper; on exit comes back one level and
    writes `};` there.
   */
  class ClassScope {
    const name: string
    const base: Option<string>
    const generator: CppGenerator

    constructor (name: string, base: Option<string>, generator: CppGenerator)
      ensures this.name == name && this.base == base && this.generator == generator
    {
      this.name := name;
      this.base := base;
      this.generator := generator;
    }

    method Enter()
      modifies generator
      ensures generator.lines == old(generator.lines) + [
        FormatLine(generator.tab, old(generator.indentationLevel), ClassHeader(name, base)),
        FormatLine(generator.tab, old(generator.indentationLevel), "{")]
      ensures generator.indentationLevel == old(generator.indentationLevel) + 1
    {
      var suffix := if base.Some? then " : " + base.value else "";
      generator.Line("class " + name + suffix);
      generator.Line("{");
      generator.Indent(1);
    }

    method Exit()
      modifies generator
      ensures generator.lines == old(generator.lines) + [
        FormatLine(generator.tab, old(generator.indentationLevel) - 1, "};")]
      ensures generator.indentationLevel == old(generator.indentationLevel) - 1
    {
      generator.Indent(-1);
      generator.Line("};");
    }
  }
}
