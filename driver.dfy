/**
  The scaffolding driver (`main` after the command line is parsed): the
  fixed sequence of writes that produces the header `<stem>.h` and the
  implementation file `<stem>.cc` of one class, where `<stem>` is the
  class name in snake case.

  `HeaderLines` and `SourceLines` describe the two files line by line, each
  line with the depth it is written at; `GenerateClass` drives two
  `CppGenerator`s through the scope guards and is proved to write exactly
  those lines and to leave both generators at level 0.
 */
module Driver {
  import opened Optional
  import opened Naming
  import opened Paths
  import opened Emitter

  /** The generators' default indent unit: two spaces. */
  const Tab: string := "  "

  /** A line of either file written at `depth` with the default unit. */
  function At(depth: int, text: string): string {
    FormatLine(Tab, depth, text)
  }

  /** An `#include` directive for a quoted path. */
  function Include(path: string): string {
    "#include \"" + path + "\""
  }

  /** One extra level inside a namespace block. */
  function Depth(o: Options): nat {
    if o.namespace.Some? then 1 else 0
  }

  /** The destructor declaration, `virtual` when asked for. */
  function DestructorDecl(o: Options): string {
    (if o.virtual then "virtual " else "") + "~" + o.className + "();"
  }

  /** The include of the base class's header, when a base is given. */
  function BaseInclude(o: Options): seq<string> {
    if o.base.Some? then [At(0, Include(GenerateFileName(o, ClassFilename(o.base.value)))), At(0, "")] else []
  }

  /** The opening of the namespace block, when a namespace is given. */
  function NamespaceOpen(o: Options): seq<string> {
    if o.namespace.Some? then [At(0, "namespace " + o.namespace.value + " {"), At(0, "")] else []
  }

  /** The closing of the namespace block, when a namespace is given. */
  function NamespaceClose(o: Options): seq<string> {
    if o.namespace.Some? then [At(0, "}")] else []
  }

  /** The class declaration: header line and braces at depth `d`, members one deeper, the label at `d`. */
  function ClassBlock(o: Options): seq<string> {
    var d := Depth(o);
    [At(d, ClassHeader(o.className, o.base)),
     At(d, "{"),
     At(d, "public:"),
     At(d + 1, o.className + "();"),
     At(d + 1, DestructorDecl(o)),
     At(d, "};")]
  }

  /**
    The header file: the include guard, the base class's header (when a base
    is given), the namespace opening (when given), the class with its public
    section declaring the constructor and destructor, and the namespace's
    closing brace.
   */
  function HeaderLines(o: Options): seq<string> {
    [At(0, "#pragma once"), At(0, "")] + BaseInclude(o) + NamespaceOpen(o) + ClassBlock(o) + NamespaceClose(o)
  }

  /** The precompiled header's include, when asked for. */
  function PrecompiledInclude(o: Options): seq<string> {
    if o.precompiled then [At(0, Include(GenerateFileName(o, "precompiled")))] else []
  }

  /** The constructor and destructor definitions at depth `d`, each after a divider. */
  function Definitions(o: Options): seq<string> {
    var d := Depth(o);
    var n := o.className;
    [At(d, CommentRule()), At(d, n + "::" + n + "()"), At(d, "{"), At(d, "}"), At(d, ""),
     At(d, CommentRule()), At(d, n + "::~" + n + "()"), At(d, "{"), At(d, "}")]
  }

  /**
    The implementation file: the precompiled header (when asked for), the
    class's own header, the namespace opening (when given), the constructor
    and destructor definitions with empty bodies, each after a divider, and
    the namespace's closing brace.
   */
  function SourceLines(o: Options): seq<string> {
    PrecompiledInclude(o)
    + [At(0, Include(GenerateFileName(o, ClassFilename(o.className)))), At(0, "")]
    + NamespaceOpen(o) + Definitions(o) + NamespaceClose(o)
  }

  /**
    The `with hpp.classdef(...)` block of `main`: the class scope around the
    public section, entered at the generator's current level `d`; the level
    is back at `d` afterwards.
   */
  method WriteClassDeclaration(o: Options, hpp: CppGenerator)
    requires hpp.tab == Tab && hpp.indentationLevel == Depth(o)
    modifies hpp
    ensures hpp.lines == old(hpp.lines) + ClassBlock(o)
    ensures hpp.indentationLevel == Depth(o)
  {
    ghost var written := hpp.lines;
    ghost var d := Depth(o);
    var className := o.className;
    var scope := hpp.Classdef(className, o.base);
    scope.Enter();
    var guard := hpp.Public();
    guard.Enter();
    assert hpp.lines == written + ClassBlock(o)[..3];
    assert hpp.indentationLevel == d + 1;
    hpp.Line(className + "();");
    hpp.Line((if o.virtual then "virtual " else "") + "~" + className + "();");
    assert hpp.lines == written + ClassBlock(o)[..5];
    guard.Exit();
    scope.Exit();
    assert hpp.indentationLevel == d;
    assert hpp.lines == written + ClassBlock(o)[..5] + [At(d, "};")];
    assert ClassBlock(o)[..5] + [At(d, "};")] == ClassBlock(o);
  }

  /**
    The header half of `main`: writes the header through a fresh generator.
    The level the namespace block adds is taken back, so it ends at 0.
   */
  method WriteHeader(o: Options, hpp: CppGenerator)
    requires hpp.tab == Tab && hpp.indentationLevel == 0 && hpp.lines == []
    modifies hpp
    ensures hpp.lines == HeaderLines(o)
    ensures hpp.indentationLevel == 0
  {
    hpp.Line("#pragma once");
    hpp.Line("");
    ghost var prologue := [At(0, "#pragma once"), At(0, "")];
    assert hpp.lines == prologue;

    if o.base.Some? {
      hpp.Line("#include \"" + GenerateFileName(o, ClassFilename(o.base.value)) + "\"");
      hpp.Line("");
    }
    assert hpp.lines == prologue + BaseInclude(o);

    if o.namespace.Some? {
      hpp.Line("namespace " + o.namespace.value + " {");
      hpp.Line("");
      hpp.Indent(1);
    }
    ghost var written := prologue + BaseInclude(o) + NamespaceOpen(o);
    assert hpp.lines == written;

    WriteClassDeclaration(o, hpp);
    written := written + ClassBlock(o);

    if o.namespace.Some? {
      hpp.Indent(-1);
      hpp.Line("}");
    }
    assert hpp.lines == written + NamespaceClose(o);
  }

  /**
    The constructor and destructor definitions of `main`, written at the
    generator's current level, which they leave unchanged.
   */
  method WriteDefinitions(o: Options, cpp: CppGenerator)
    requires cpp.tab == Tab && cpp.indentationLevel == Depth(o)
    modifies cpp
    ensures cpp.lines == old(cpp.lines) + Definitions(o)
    ensures cpp.indentationLevel == Depth(o)
  {
    ghost var written := cpp.lines;
    var className := o.className;
    cpp.CommentLine();
    cpp.Line(className + "::" + className + "()");
    cpp.Line("{");
    cpp.Line("}");
    cpp.Line("");
    assert cpp.lines == written + Definitions(o)[..5];

    cpp.CommentLine();
    cpp.Line(className + "::~" + className + "()");
    cpp.Line("{");
    cpp.Line("}");
    assert cpp.lines == written + Definitions(o)[..5] + Definitions(o)[5..];
    assert Definitions(o)[..5] + Definitions(o)[5..] == Definitions(o);
  }

  /**
    The implementation half of `main`: writes the implementation file
    through a fresh generator, which ends at level 0.
   */
  method WriteSource(o: Options, cpp: CppGenerator)
    requires cpp.tab == Tab && cpp.indentationLevel == 0 && cpp.lines == []
    modifies cpp
    ensures cpp.lines == SourceLines(o)
    ensures cpp.indentationLevel == 0
  {
    if o.precompiled {
      cpp.Line("#include \"" + GenerateFileName(o, "precompiled") + "\"");
    }
    assert cpp.lines == PrecompiledInclude(o);

    cpp.Line("#include \"" + GenerateFileName(o, ClassFilename(o.className)) + "\"");
    cpp.Line("");
    ghost var written := PrecompiledInclude(o) + [At(0, Include(GenerateFileName(o, ClassFilename(o.className)))), At(0, "")];
    assert cpp.lines == written;

    if o.namespace.Some? {
      cpp.Line("namespace " + o.namespace.value + " {");
      cpp.Line("");
      cpp.Indent(1);
    }
    written := written + NamespaceOpen(o);
    assert cpp.lines == written;

    WriteDefinitions(o, cpp);
    written := written + Definitions(o);

    if o.namespace.Some? {
      cpp.Indent(-1);
      cpp.Line("}");
    }
    assert cpp.lines == written + NamespaceClose(o);
  }

  /**
    `main` after option parsing: the header and the implementation file,
    each through its own generator, named after the class's snake-case stem.
   */
  method GenerateClass(o: Options) returns (hpp: CppGenerator, cpp: CppGenerator)
    ensures fresh(hpp) && fresh(cpp) && hpp != cpp
    ensures hpp.filename == ClassFilename(o.className) + ".h"
    ensures cpp.filename == ClassFilename(o.className) + ".cc"
    ensures hpp.tab == Tab && cpp.tab == Tab
    ensures hpp.lines == HeaderLines(o)
    ensures cpp.lines == SourceLines(o)
    ensures hpp.indentationLevel == 0 && cpp.indentationLevel == 0
  {
    var classFileName := ClassFilename(o.className);
    hpp := new CppGenerator(classFileName + ".h");
    WriteHeader(o, hpp);
    cpp := new CppGenerator(classFileName + ".cc");
    WriteSource(o, cpp);
  }

  // ---------------------------------------------------------------------
  // Layout of the generated files
  // ---------------------------------------------------------------------

  /** A line written at depth 1 or more starts with one indent unit. */
  lemma DeeperStartsWithTab(d: int, text: string)
    requires d >= 1
    ensures |At(d, text)| >= 2 && At(d, text)[..2] == Tab
  {
    FormatLineDeeper(Tab, d - 1, text);
  }

  /**
    With a namespace, the header puts `namespace N {` after the includes and
    `}` last, and every line of the class declaration between them is
    indented one level deeper than those two.
   */
  lemma HeaderNamespaceWraps(o: Options)
    requires o.namespace.Some?
    ensures var r := HeaderLines(o); var k := 2 + |BaseInclude(o)|;
      |r| == k + 9 &&
      r[k] == "namespace " + o.namespace.value + " {\n" &&
      r[|r| - 1] == "}\n" &&
      forall j :: k + 2 <= j < k + 8 ==> |r[j]| >= 2 && r[j][..2] == Tab
  {
    var r := HeaderLines(o);
    var k := 2 + |BaseInclude(o)|;
    var block := ClassBlock(o);
    assert r == [At(0, "#pragma once"), At(0, "")] + BaseInclude(o) + NamespaceOpen(o) + block + NamespaceClose(o);
    forall j | 0 <= j < 6
      ensures |block[j]| >= 2 && block[j][..2] == Tab
    {
      var text := [ClassHeader(o.className, o.base), "{", "public:", o.className + "();", DestructorDecl(o), "};"][j];
      var depth := if j == 3 || j == 4 then 2 else 1;
      assert block[j] == At(depth, text);
      DeeperStartsWithTab(depth, text);
    }
    assert forall j :: k + 2 <= j < k + 8 ==> r[j] == block[j - k - 2];
    assert At(0, "namespace " + o.namespace.value + " {") == "namespace " + o.namespace.value + " {\n";
    assert At(0, "}") == "}\n";
  }

  /**
    With a namespace, the implementation file puts `namespace N {` after the
    includes and `}` last, and every line of the two definitions between them
    is indented one level deeper than those two.
   */
  lemma SourceNamespaceWraps(o: Options)
    requires o.namespace.Some?
    ensures var r := SourceLines(o); var k := |PrecompiledInclude(o)| + 2;
      |r| == k + 12 &&
      r[k] == "namespace " + o.namespace.value + " {\n" &&
      r[|r| - 1] == "}\n" &&
      forall j :: k + 2 <= j < k + 11 ==> |r[j]| >= 2 && r[j][..2] == Tab
  {
    var r := SourceLines(o);
    var k := |PrecompiledInclude(o)| + 2;
    var defs := Definitions(o);
    DefinitionsIndented(o);
    assert forall j :: k + 2 <= j < k + 11 ==> r[j] == defs[j - k - 2];
    assert At(0, "namespace " + o.namespace.value + " {") == "namespace " + o.namespace.value + " {\n";
    assert At(0, "}") == "}\n";
  }

  /** Inside a namespace, every line of the two definitions starts with one indent unit. */
  lemma DefinitionsIndented(o: Options)
    requires o.namespace.Some?
    ensures |Definitions(o)| == 9
    ensures forall j :: 0 <= j < 9 ==> |Definitions(o)[j]| >= 2 && Definitions(o)[j][..2] == Tab
  {
    var n := o.className;
    DeeperStartsWithTab(1, CommentRule());
    DeeperStartsWithTab(1, n + "::" + n + "()");
    DeeperStartsWithTab(1, "{");
    DeeperStartsWithTab(1, "}");
    DeeperStartsWithTab(1, "");
    DeeperStartsWithTab(1, n + "::~" + n + "()");
  }

  /**
    With the precompiled flag, the implementation file's first line includes
    `precompiled.h` (under the library, when one is set) and the second its
    own header.
   */
  lemma PrecompiledFirst(o: Options)
    requires o.precompiled
    ensures SourceLines(o)[0] == At(0, Include(GenerateFileName(o, "precompiled")))
    ensures SourceLines(o)[1] == At(0, Include(GenerateFileName(o, ClassFilename(o.className))))
  {
    var first := PrecompiledInclude(o);
    var own := [At(0, Include(GenerateFileName(o, ClassFilename(o.className)))), At(0, "")];
    var prologue := first + own;
    assert first == [At(0, Include(GenerateFileName(o, "precompiled")))];
    assert prologue[0] == first[0] && prologue[1] == own[0];
    assert SourceLines(o) == prologue + NamespaceOpen(o) + Definitions(o) + NamespaceClose(o);
  }

  // ---------------------------------------------------------------------
  // Brace balance of the generated files
  // ---------------------------------------------------------------------

  /** A string without curly braces. */
  predicate NoBraces(s: string) {
    '{' !in s && '}' !in s
  }

  /** Options whose names (class, namespace, library, base) hold no curly braces, as C++ names do not. */
  predicate PlainOptions(o: Options) {
    && NoBraces(o.className)
    && (o.namespace.Some? ==> NoBraces(o.namespace.value))
    && (o.library.Some? ==> NoBraces(o.library.value))
    && (o.base.Some? ==> NoBraces(o.base.value))
  }

  /** What one line does to the brace nesting: its `{` count minus its `}` count. */
  function Braces(line: string): int {
    Occurrences('{', line) - Occurrences('}', line)
  }

  /** The net brace nesting of a sequence of lines. */
  function Nesting(lines: seq<string>): int {
    if lines == [] then 0 else Braces(lines[0]) + Nesting(lines[1..])
  }

  /** Reading the lines from nesting `depth` on, the nesting is never negative: no `}` closes what was not opened. */
  predicate NeverNegative(lines: seq<string>, depth: int) {
    depth >= 0 && (lines == [] || NeverNegative(lines[1..], depth + Braces(lines[0])))
  }

  /** Every brace opened is closed, and none is closed before it is opened. */
  predicate BracesBalanced(lines: seq<string>) {
    Nesting(lines) == 0 && NeverNegative(lines, 0)
  }

  lemma {:induction false} OccurrencesAbsent(c: char, s: string)
    requires c !in s
    ensures Occurrences(c, s) == 0
    decreases |s|
  {
    if s != [] {
      assert c !in s[1..];
      OccurrencesAbsent(c, s[1..]);
    }
  }

  lemma BracesAppend(a: string, b: string)
    ensures Braces(a + b) == Braces(a) + Braces(b)
  {
    OccurrencesAppend('{', a, b);
    OccurrencesAppend('}', a, b);
  }

  /** The indent and the newline add no braces: a line changes the nesting as its text does. */
  lemma BracesAt(d: int, text: string)
    ensures Braces(At(d, text)) == Braces(text)
  {
    RepeatShape(Tab, d);
    var indent := Repeat(Tab, d);
    assert forall i :: 0 <= i < |indent| ==> indent[i] == ' ';
    OccurrencesAbsent('{', indent);
    OccurrencesAbsent('}', indent);
    OccurrencesAbsent('{', "\n");
    OccurrencesAbsent('}', "\n");
    BracesAppend(indent, text);
    BracesAppend(indent + text, "\n");
  }

  /** A line of text without braces changes nothing, at any depth. */
  lemma BraceFreeLine(d: int, text: string)
    requires NoBraces(text)
    ensures Braces(At(d, text)) == 0
  {
    BracesAt(d, text);
    OccurrencesAbsent('{', text);
    OccurrencesAbsent('}', text);
  }

  /** The opening `{` and closing `}` or `};` lines, at any depth. */
  lemma BraceLines(d: int, text: string)
    requires NoBraces(text)
    ensures Braces(At(d, text + " {")) == 1
    ensures Braces(At(d, "{")) == 1
    ensures Braces(At(d, "}")) == -1
    ensures Braces(At(d, "};")) == -1
  {
    BracesAt(d, text + " {");
    BracesAt(d, "{");
    BracesAt(d, "}");
    BracesAt(d, "};");
    OccurrencesAbsent('{', text);
    OccurrencesAbsent('}', text);
    BracesAppend(text, " {");
    assert Occurrences('{', " {") == 1 && Occurrences('}', " {") == 0 by {
      assert " {"[1..] == "{";
      assert "{"[1..] == "";
    }
    assert Occurrences('{', "{") == 1 && Occurrences('}', "{") == 0 by {
      assert "{"[1..] == "";
    }
    assert Occurrences('{', "}") == 0 && Occurrences('}', "}") == 1 by {
      assert "}"[1..] == "";
    }
    assert Occurrences('{', "};") == 0 && Occurrences('}', "};") == 1 by {
      assert "};"[1..] == ";";
      assert ";"[1..] == "";
    }
  }

  lemma {:induction false} NestingAppend(a: seq<string>, b: seq<string>, depth: int)
    ensures Nesting(a + b) == Nesting(a) + Nesting(b)
    ensures NeverNegative(a, depth) && NeverNegative(b, depth + Nesting(a)) ==> NeverNegative(a + b, depth)
    decreases |a|
  {
    if a == [] {
      assert a + b == b;
    } else {
      assert (a + b)[0] == a[0];
      assert (a + b)[1..] == a[1..] + b;
      NestingAppend(a[1..], b, depth + Braces(a[0]));
    }
  }

  /** Lines without braces keep the nesting where it is. */
  lemma {:induction false} FlatLines(lines: seq<string>, depth: int)
    requires depth >= 0
    requires forall i :: 0 <= i < |lines| ==> Braces(lines[i]) == 0
    ensures Nesting(lines) == 0 && NeverNegative(lines, depth)
    decreases |lines|
  {
    if lines != [] {
      FlatLines(lines[1..], depth);
    }
  }

  /** One line that opens, a balanced middle one level deeper, one line that closes. */
  lemma Bracketed(pre: seq<string>, open: string, mid: seq<string>, close: string, depth: int)
    requires Nesting(pre) == 0 && NeverNegative(pre, depth)
    requires Braces(open) == 1 && Braces(close) == -1
    requires Nesting(mid) == 0 && NeverNegative(mid, depth + 1)
    ensures Nesting(pre + [open] + mid + [close]) == 0
    ensures NeverNegative(pre + [open] + mid + [close], depth)
  {
    assert Nesting([open]) == 1 && NeverNegative([open], depth) by {
      assert [open][1..] == [];
    }
    ClosingLine(close, depth + 1);
    NestingAppend(pre, [open], depth);
    NestingAppend(pre + [open], mid, depth);
    NestingAppend(pre + [open] + mid, [close], depth);
  }

  /** The class declaration opens and closes one pair of braces, at any depth. */
  lemma ClassBlockBalanced(o: Options, depth: int)
    requires PlainOptions(o) && depth >= 0
    ensures Nesting(ClassBlock(o)) == 0 && NeverNegative(ClassBlock(o), depth)
  {
    var d := Depth(o);
    var b := ClassBlock(o);
    BraceFreeLine(d, ClassHeader(o.className, o.base));
    BraceFreeLine(d, "public:");
    BraceFreeLine(d + 1, o.className + "();");
    BraceFreeLine(d + 1, DestructorDecl(o));
    BraceLines(d, "");
    FlatLines(b[..1], depth);
    FlatLines(b[2..5], depth + 1);
    Bracketed(b[..1], b[1], b[2..5], b[5], depth);
    assert b[..1] + [b[1]] + b[2..5] + [b[5]] == b;
  }

  /** The two definitions each open and close one pair of braces, at any depth. */
  lemma DefinitionsBalanced(o: Options, depth: int)
    requires PlainOptions(o) && depth >= 0
    ensures Nesting(Definitions(o)) == 0 && NeverNegative(Definitions(o), depth)
  {
    var d := Depth(o);
    var n := o.className;
    var b := Definitions(o);
    var rule := CommentRule();
    assert NoBraces(rule) by {
      assert forall i :: 0 <= i < |rule| ==> rule[i] == '/' || rule[i] == '-';
    }
    BraceFreeLine(d, rule);
    BraceFreeLine(d, n + "::" + n + "()");
    BraceFreeLine(d, "");
    BraceFreeLine(d, n + "::~" + n + "()");
    BraceLines(d, "");
    FlatLines(b[..2], depth);
    FlatLines([], depth + 1);
    Bracketed(b[..2], b[2], [], b[3], depth);
    FlatLines(b[4..7], depth);
    Bracketed(b[4..7], b[7], [], b[8], depth);
    assert b == (b[..2] + [b[2]] + [] + [b[3]]) + (b[4..7] + [b[7]] + [] + [b[8]]);
    NestingAppend(b[..2] + [b[2]] + [] + [b[3]], b[4..7] + [b[7]] + [] + [b[8]], depth);
  }

  /** The `namespace N {` line opens one brace. */
  lemma NamespaceOpenLine(name: string)
    requires NoBraces(name)
    ensures Braces(At(0, "namespace " + name + " {")) == 1
  {
    BraceLines(0, "namespace " + name);
    assert "namespace " + name + " {" == ("namespace " + name) + " {";
  }

  /** The namespace block, when there is one, wraps a balanced body; lines before it hold no braces. */
  lemma NamespaceWrapped(o: Options, pre: seq<string>, inner: seq<string>)
    requires PlainOptions(o)
    requires Nesting(pre) == 0 && NeverNegative(pre, 0)
    requires Nesting(inner) == 0 && NeverNegative(inner, Depth(o))
    ensures BracesBalanced(pre + NamespaceOpen(o) + inner + NamespaceClose(o))
  {
    if o.namespace.Some? {
      InNamespace(o, pre, inner);
    } else {
      NestingAppend(pre, inner, 0);
      assert pre + NamespaceOpen(o) + inner + NamespaceClose(o) == pre + inner;
    }
  }

  lemma InNamespace(o: Options, pre: seq<string>, inner: seq<string>)
    requires PlainOptions(o) && o.namespace.Some?
    requires Nesting(pre) == 0 && NeverNegative(pre, 0)
    requires Nesting(inner) == 0 && NeverNegative(inner, 1)
    ensures BracesBalanced(pre + NamespaceOpen(o) + inner + NamespaceClose(o))
  {
    NamespaceLines(o);
    var opening := NamespaceOpen(o);
    var closing := NamespaceClose(o);
    InsideNamespace(opening[0], opening[1], closing[0], pre, inner);
  }

  /** The lines of the namespace block: the first opens a brace, the second holds none, the last closes one. */
  lemma NamespaceLines(o: Options)
    requires PlainOptions(o) && o.namespace.Some?
    ensures NamespaceOpen(o) == [NamespaceOpen(o)[0], NamespaceOpen(o)[1]]
    ensures NamespaceClose(o) == [NamespaceClose(o)[0]]
    ensures Braces(NamespaceOpen(o)[0]) == 1 && Braces(NamespaceOpen(o)[1]) == 0
    ensures Braces(NamespaceClose(o)[0]) == -1
  {
    NamespaceOpenLine(o.namespace.value);
    BraceLines(0, "");
    BraceFreeLine(0, "");
  }

  /** An opening line, a blank line, a body balanced one level in, and a closing line. */
  lemma InsideNamespace(open: string, blank: string, close: string, pre: seq<string>, inner: seq<string>)
    requires Braces(open) == 1 && Braces(blank) == 0 && Braces(close) == -1
    requires Nesting(pre) == 0 && NeverNegative(pre, 0)
    requires Nesting(inner) == 0 && NeverNegative(inner, 1)
    ensures BracesBalanced(pre + [open, blank] + inner + [close])
  {
    OpeningPair(open, blank);
    ClosingLine(close, 1);
    NestingAppend(pre, [open, blank], 0);
    NestingAppend(pre + [open, blank], inner, 0);
    NestingAppend(pre + [open, blank] + inner, [close], 0);
  }

  /** A line that opens a brace followed by one that holds none. */
  lemma OpeningPair(open: string, blank: string)
    requires Braces(open) == 1 && Braces(blank) == 0
    ensures Nesting([open, blank]) == 1 && NeverNegative([open, blank], 0)
  {
    assert [blank][1..] == [];
    assert Nesting([blank]) == 0 && NeverNegative([blank], 1);
    assert [open, blank][1..] == [blank];
  }

  /** A line that closes a brace, read at a depth of at least one. */
  lemma ClosingLine(close: string, depth: int)
    requires Braces(close) == -1 && depth >= 1
    ensures Nesting([close]) == -1 && NeverNegative([close], depth)
  {
    assert [close][1..] == [];
  }

  /** An include line, and the blank line after it, hold no braces when the stem and library hold none. */
  lemma IncludeLineFlat(o: Options, stem: string)
    requires PlainOptions(o) && NoBraces(stem)
    ensures Braces(At(0, Include(GenerateFileName(o, stem)))) == 0
    ensures Braces(At(0, "")) == 0
  {
    var path := GenerateFileName(o, stem);
    assert NoBraces(path) by {
      if o.library.Some? {
        assert path == o.library.value + "/" + stem + ".h";
      } else {
        assert path == stem + ".h";
      }
    }
    assert NoBraces(Include(path));
    BraceFreeLine(0, Include(path));
    BraceFreeLine(0, "");
  }

  /** The include line of a class's header holds no braces when the class name holds none. */
  lemma StemIncludeFlat(o: Options, className: string)
    requires PlainOptions(o) && NoBraces(className)
    ensures Braces(At(0, Include(GenerateFileName(o, ClassFilename(className))))) == 0
    ensures Braces(At(0, "")) == 0
  {
    StemKeepsOut('{', className);
    StemKeepsOut('}', className);
    IncludeLineFlat(o, ClassFilename(className));
  }

  /** The lines before the header's namespace block hold no braces. */
  lemma HeaderPrologueFlat(o: Options)
    requires PlainOptions(o)
    ensures var pre := [At(0, "#pragma once"), At(0, "")] + BaseInclude(o);
      Nesting(pre) == 0 && NeverNegative(pre, 0)
  {
    var top := [At(0, "#pragma once"), At(0, "")];
    BraceFreeLine(0, "#pragma once");
    BraceFreeLine(0, "");
    FlatPair(top[0], top[1], 0);
    BaseIncludeFlat(o);
    NestingAppend(top, BaseInclude(o), 0);
  }

  /** The base class's include and the blank line after it hold no braces. */
  lemma BaseIncludeFlat(o: Options)
    requires PlainOptions(o)
    ensures Nesting(BaseInclude(o)) == 0 && NeverNegative(BaseInclude(o), 0)
  {
    if o.base.Some? {
      var lines := BaseInclude(o);
      StemIncludeFlat(o, o.base.value);
      FlatPair(lines[0], lines[1], 0);
    }
  }

  /** The lines before the implementation file's namespace block hold no braces. */
  lemma SourcePrologueFlat(o: Options, stem: string)
    requires PlainOptions(o) && NoBraces(stem)
    ensures var pre := PrecompiledInclude(o) + [At(0, Include(GenerateFileName(o, stem))), At(0, "")];
      Nesting(pre) == 0 && NeverNegative(pre, 0)
  {
    var own := [At(0, Include(GenerateFileName(o, stem))), At(0, "")];
    IncludeLineFlat(o, stem);
    FlatPair(own[0], own[1], 0);
    PrecompiledFlat(o);
    NestingAppend(PrecompiledInclude(o), own, 0);
  }

  lemma PrecompiledFlat(o: Options)
    requires PlainOptions(o)
    ensures Nesting(PrecompiledInclude(o)) == 0 && NeverNegative(PrecompiledInclude(o), 0)
  {
    if o.precompiled {
      IncludeLineFlat(o, "precompiled");
    }
    FlatLines(PrecompiledInclude(o), 0);
  }

  lemma FlatPair(x: string, y: string, depth: int)
    requires Braces(x) == 0 && Braces(y) == 0 && depth >= 0
    ensures Nesting([x, y]) == 0 && NeverNegative([x, y], depth)
  {
    assert [y][1..] == [];
    assert Nesting([y]) == 0 && NeverNegative([y], depth);
    assert [x, y][1..] == [y];
  }

  /**
    For options whose names hold no braces, the header's braces balance:
    the class's `{`/`};` and the namespace's `{`/`}` are each opened before
    they are closed, and all are closed at the end.
   */
  lemma HeaderBracesBalanced(o: Options)
    requires PlainOptions(o)
    ensures BracesBalanced(HeaderLines(o))
  {
    HeaderPrologueFlat(o);
    ClassBlockBalanced(o, Depth(o));
    NamespaceWrapped(o, [At(0, "#pragma once"), At(0, "")] + BaseInclude(o), ClassBlock(o));
  }

  /**
    For options whose names hold no braces, the implementation file's braces
    balance: each definition's body and the namespace block are opened
    before they are closed, and all are closed at the end.
   */
  lemma SourceBracesBalanced(o: Options)
    requires PlainOptions(o)
    ensures BracesBalanced(SourceLines(o))
  {
    StemKeepsOut('{', o.className);
    StemKeepsOut('}', o.className);
    SourcePrologueFlat(o, ClassFilename(o.className));
    DefinitionsBalanced(o, Depth(o));
    NamespaceWrapped(o, PrecompiledInclude(o) + [At(0, Include(GenerateFileName(o, ClassFilename(o.className)))), At(0, "")], Definitions(o));
  }

  // ---------------------------------------------------------------------
  // Worked examples
  // ---------------------------------------------------------------------

  /** A line at depth 0 is the text and a newline. */
  lemma AtTop(text: string)
    ensures At(0, text) == text + "\n"
  {
    assert Repeat(Tab, 0) == "";
  }

  /** A line at depth 1 is the tab, the text and a newline. */
  lemma AtOne(text: string)
    ensures At(1, text) == "  " + text + "\n"
  {
    assert Repeat(Tab, 1) == Tab + Repeat(Tab, 0);
    assert Repeat(Tab, 0) == "";
  }

  /** At depth 0, the class block is the header line, the braces, the label and the two members one tab in. */
  lemma TopClassBlock(o: Options)
    requires o.namespace.None?
    ensures ClassBlock(o) == [ClassHeader(o.className, o.base) + "\n", "{\n", "public:\n",
                              "  " + o.className + "();\n", "  " + DestructorDecl(o) + "\n", "};\n"]
  {
    assert Depth(o) == 0;
    AtTop(ClassHeader(o.className, o.base));
    AtTop("{");
    AtTop("public:");
    AtTop("};");
    AtOne(o.className + "();");
    AtOne(DestructorDecl(o));
    assert "{" + "\n" == "{\n" && "public:" + "\n" == "public:\n" && "};" + "\n" == "};\n";
    assert "  " + (o.className + "();") + "\n" == "  " + o.className + "();\n";
  }

  /** `Widget` with no options: the pragma, a blank line and the bare class declaration. */
  lemma ExampleWidgetHeader(o: Options)
    requires o == Options("Widget", None, None, false, false, None)
    ensures HeaderLines(o) == ["#pragma once\n", "\n", "class Widget\n", "{\n", "public:\n",
                               "  Widget();\n", "  ~Widget();\n", "};\n"]
  {
    TopClassBlock(o);
    AtTop("#pragma once");
    AtTop("");
    assert ClassHeader(o.className, o.base) == "class Widget";
    assert DestructorDecl(o) == "~Widget();";
    assert ClassHeader(o.className, o.base) + "\n" == "class Widget\n";
    assert "  " + o.className + "();\n" == "  Widget();\n";
    assert "  " + DestructorDecl(o) + "\n" == "  ~Widget();\n";
    assert ClassBlock(o) == ["class Widget\n", "{\n", "public:\n", "  Widget();\n", "  ~Widget();\n", "};\n"];
    assert BaseInclude(o) == [] && NamespaceOpen(o) == [] && NamespaceClose(o) == [];
    assert HeaderLines(o) == [At(0, "#pragma once"), At(0, "")] + ClassBlock(o);
    assert At(0, "#pragma once") == "#pragma once\n" && At(0, "") == "\n";
  }

  /** With a base class, its include line is the library path of the given stem, then a blank line. */
  lemma BaseIncludeOf(o: Options, stem: string)
    requires o.base.Some? && ClassFilename(o.base.value) == stem
    ensures BaseInclude(o) == [Include(GenerateFileName(o, stem)) + "\n", "\n"]
  {
    AtTop(Include(GenerateFileName(o, stem)));
    AtTop("");
    assert "" + "\n" == "\n";
  }

  /** Outside a namespace and with a base class: the pragma, the base's include, the class block. */
  lemma TopHeaderWithBase(o: Options, stem: string)
    requires o.namespace.None? && o.base.Some? && ClassFilename(o.base.value) == stem
    ensures HeaderLines(o) == ["#pragma once\n", "\n", Include(GenerateFileName(o, stem)) + "\n", "\n"] + ClassBlock(o)
  {
    BaseIncludeOf(o, stem);
    AtTop("#pragma once");
    AtTop("");
    assert "#pragma once" + "\n" == "#pragma once\n";
    assert "" + "\n" == "\n";
    assert NamespaceOpen(o) == [] && NamespaceClose(o) == [];
    assert HeaderLines(o) == [At(0, "#pragma once"), At(0, "")] + BaseInclude(o) + ClassBlock(o);
    assert [At(0, "#pragma once"), At(0, "")] + BaseInclude(o) ==
           ["#pragma once\n", "\n", Include(GenerateFileName(o, stem)) + "\n", "\n"];
  }

  /** The stem `base_widget` in library `lib` is included as `lib/base_widget.h`. */
  lemma LibraryBaseWidgetInclude(o: Options, stem: string)
    requires o.library == Some("lib") && stem == "base_widget"
    ensures Include(GenerateFileName(o, stem)) + "\n" == "#include \"lib/base_widget.h\"\n"
  {
    assert GenerateFileName(o, stem) == "lib/base_widget.h";
  }

  /** The class block of `MyWidget`, derived from `BaseWidget`, with a virtual destructor. */
  lemma MyWidgetClassBlock(o: Options)
    requires o.className == "MyWidget" && o.namespace.None? && o.virtual && o.base == Some("BaseWidget")
    ensures ClassBlock(o) == ["class MyWidget : BaseWidget\n", "{\n", "public:\n",
                              "  MyWidget();\n", "  virtual ~MyWidget();\n", "};\n"]
  {
    TopClassBlock(o);
    MyWidgetHeaderLine(o.className, o.base);
    MyWidgetDestructorLine(o);
    assert "  " + o.className + "();\n" == "  MyWidget();\n";
  }

  /** `MyWidget` derived from `BaseWidget` names its base on the header line. */
  lemma MyWidgetHeaderLine(name: string, base: Option<string>)
    requires name == "MyWidget" && base == Some("BaseWidget")
    ensures ClassHeader(name, base) + "\n" == "class MyWidget : BaseWidget\n"
  {
    assert ClassHeader(name, base) == "class MyWidget : BaseWidget";
  }

  /** A virtual destructor of `MyWidget`, one tab in. */
  lemma MyWidgetDestructorLine(o: Options)
    requires o.className == "MyWidget" && o.virtual
    ensures "  " + DestructorDecl(o) + "\n" == "  virtual ~MyWidget();\n"
  {
    assert DestructorDecl(o) == "virtual ~MyWidget();";
  }

  /**
    `MyWidget` with base `BaseWidget`, library `lib` and a virtual
    destructor: the base's header is included from the library, the class
    derives from the base, and the destructor is virtual.
   */
  lemma ExampleMyWidgetHeader(o: Options)
    requires o == Options("MyWidget", None, Some("lib"), false, true, Some("BaseWidget"))
    ensures HeaderLines(o) == ["#pragma once\n", "\n", "#include \"lib/base_widget.h\"\n", "\n"] +
                              ["class MyWidget : BaseWidget\n", "{\n", "public:\n",
                               "  MyWidget();\n", "  virtual ~MyWidget();\n", "};\n"]
  {
    ExampleBaseWidget(o.base.value);
    TopHeaderWithBase(o, "base_widget");
    LibraryBaseWidgetInclude(o, "base_widget");
    MyWidgetClassBlock(o);
  }

  /** Outside a namespace, the definitions are the nine lines at depth 0. */
  lemma TopDefinitions(o: Options)
    requires o.namespace.None?
    ensures var n := o.className;
      Definitions(o) == [CommentRule() + "\n", n + "::" + n + "()\n", "{\n", "}\n", "\n",
                         CommentRule() + "\n", n + "::~" + n + "()\n", "{\n", "}\n"]
  {
    var n := o.className;
    assert Depth(o) == 0;
    AtTop(CommentRule());
    AtTop(n + "::" + n + "()");
    AtTop(n + "::~" + n + "()");
    AtTop("{");
    AtTop("}");
    AtTop("");
    assert "{" + "\n" == "{\n" && "}" + "\n" == "}\n" && "" + "\n" == "\n";
    assert n + "::" + n + "()" + "\n" == n + "::" + n + "()\n";
    assert n + "::~" + n + "()" + "\n" == n + "::~" + n + "()\n";
  }

  /**
    Outside a namespace and without the precompiled header: the class's own
    include, a blank line, then the definitions.
   */
  lemma TopSource(o: Options, stem: string)
    requires o.namespace.None? && !o.precompiled && ClassFilename(o.className) == stem
    ensures SourceLines(o) == [Include(GenerateFileName(o, stem)) + "\n", "\n"] + Definitions(o)
  {
    AtTop(Include(GenerateFileName(o, stem)));
    AtTop("");
    assert "" + "\n" == "\n";
    assert PrecompiledInclude(o) == [] && NamespaceOpen(o) == [] && NamespaceClose(o) == [];
    assert SourceLines(o) == [At(0, Include(GenerateFileName(o, stem))), At(0, "")] + Definitions(o);
  }

  /** The stem `widget` without a library is included as `widget.h`. */
  lemma WidgetInclude(o: Options, stem: string)
    requires o.library.None? && stem == "widget"
    ensures Include(GenerateFileName(o, stem)) + "\n" == "#include \"widget.h\"\n"
  {
    assert GenerateFileName(o, stem) == "widget.h";
  }

  /** The two definition heads of `Widget`. */
  lemma WidgetDefinitionHeads(n: string)
    requires n == "Widget"
    ensures n + "::" + n + "()\n" == "Widget::Widget()\n"
    ensures n + "::~" + n + "()\n" == "Widget::~Widget()\n"
  {
  }

  /**
    `Widget` with no options: the implementation file includes `widget.h`,
    then defines the constructor and the destructor, each after a divider
    and each with an empty body on lines of its own.
   */
  lemma ExampleWidgetSource(o: Options)
    requires o == Options("Widget", None, None, false, false, None)
    ensures SourceLines(o) == ["#include \"widget.h\"\n", "\n"] +
                              [CommentRule() + "\n", "Widget::Widget()\n", "{\n", "}\n", "\n",
                               CommentRule() + "\n", "Widget::~Widget()\n", "{\n", "}\n"]
  {
    ExampleWidget(o.className);
    TopSource(o, "widget");
    WidgetInclude(o, "widget");
    TopDefinitions(o);
    WidgetDefinitionHeads(o.className);
  }
}
