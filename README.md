# generate_class — a verified model of the C++ class skeleton generator

`generate_class.py` takes a CamelCase class name and a few options and writes
two C++ files: a header `<stem>.h` that declares the class and an
implementation file `<stem>.cc` that holds an empty constructor and an empty
destructor. `<stem>` is the class name in snake case. Options can add a
namespace around both files, a library directory before every include path,
a `precompiled.h` include, a `virtual` destructor, and a base class.

This project models the generator in Dafny in five modules:

- `Optional`: the `Option` datatype, used for the options that default to `None`.
- `Naming`: `generateClassFilename`, modelled by `ClassFilename` as the three
  steps the source takes: the scan `re.findall('[A-Z][^A-Z]*')` (`FindWords`), then
  lower-casing each word (`LowerWords`), then `'_'.join` (`Join`). An
  independent one-pass definition, `Snake`, lower-cases every character of a
  string whose first character starts the first word, and puts `_` before
  every upper-case letter except that first character. The lemmas show that
  the two agree on the part of the name from its first upper-case letter on. They also
  show that the scan is the unique split into words that each hold one
  upper-case letter, at their start, and they
  state what the result is made of: its characters, its underscores, and the
  prefix that is dropped.
- `Paths`: the options record and `generateFileName`. The source has no
  inverse; the model adds one, `SplitIncludePath` (which cuts a path at its
  last `/`, found by the helper `LastSlash`), only as the partner of the
  round-trip lemma.
- `Emitter`: the three classes of the source. `CppGenerator` holds the file,
  the indent unit and the indentation level. `Indenter` and `ClassScope` are
  its scope guards. Each class's `__enter__`/`__exit__` become methods
  `Enter`/`Exit` with `modifies` clauses. The output file is the field
  `lines`: the sequence of strings written, in order. `Repeat` models
  `tab * n`, `FormatLine` the indented line that `line` writes, and
  `ClassHeader` the `class N : B` line that the class scope writes.
- `Driver`: the body of `main` once the command line has been parsed.
  `HeaderLines` and `SourceLines` describe both files line by line, with the
  depth each line is written at. `GenerateClass` drives two generators
  through the scope guards and is proved to write exactly those lines and to
  leave both levels at 0. Lemmas about the layouts show where the namespace
  block sits, and that `{` and `}` balance in both files whenever the names
  given hold no braces. `WriteHeader`, `WriteClassDeclaration`, `WriteSource`
  and `WriteDefinitions` split `main` into four parts so that each proof
  stays small; they run the same writes in the same order as `main`.
  Definitions are written as the code writes them: `N::N()` on one line,
  then `{` and `}` on lines of their own.

## Model

| member | source | states |
|---|---|---|
| Naming.Lower | generate_class.py:53 | `str.lower` on one character: A–Z go to the matching a–z, every other character is kept, and the result is never upper case |
| Naming.NonUpperRun | generate_class.py:52 | the greedy `[^A-Z]*` run at the start of a string fits in the string, and the character after it, if any, is upper case |
| Naming.NonUpperRunPrefix | generate_class.py:52 | no character of that run is upper case |
| Naming.RunEndsAt | generate_class.py:52 | a prefix without upper-case letters that ends at an upper-case letter or at the end of the string is the run: the run is unique |
| Naming.FindWordsAreWords | generate_class.py:52 | `re.findall('[A-Z][^A-Z]*')`: every match is one upper-case letter followed by non-upper-case characters |
| Naming.WordsCover | generate_class.py:52 | the matches, concatenated, give back the class name minus its leading run without upper-case letters: no other character is lost |
| Naming.WordsUnique | generate_class.py:52 | scanning a concatenation of words, each holding one upper-case letter at its start and no other, gives back exactly those words: the scan is the unique split |
| Naming.FindWordsSkipsPrefix | generate_class.py:52 | characters before the first upper-case letter never start or join a match |
| Naming.JoinedWordsAreSnake | generate_class.py:51-53 | for a name that is empty or starts upper case, find-lower-join equals the one-pass snake-case definition |
| Naming.ClassFilenameIsSnake | generate_class.py:51-53 | for every name, the generated stem is the one-pass snake case of the part from the first upper-case letter on |
| Naming.PrefixDropped | generate_class.py:51-53 | a prefix without upper-case letters does not change the stem |
| Naming.NoUpperGivesEmpty | generate_class.py:51-53 | a name without an upper-case letter gives the empty stem |
| Naming.ResultHasNoUpper | generate_class.py:51-53 | the stem holds no upper-case letter |
| Naming.UnderscoreCount | generate_class.py:51-53 | for a name without `_`, the stem has one `_` fewer than the name has upper-case letters, and none when it has none |
| Naming.StemKeepsOut | generate_class.py:51-53 | a character that is not `_` and not an ASCII letter appears in the stem only if it appears in the name |
| Naming.CamelCaseName | generate_class.py:51-53 | a name built from words that each hold one upper-case letter, at their start, gives those words, lower-cased and joined with `_` |
| Naming.TwoWords | generate_class.py:51-53 | a two-word name gives `first_second` in lower case |
| Naming.ThreeWords | generate_class.py:51-53 | a three-word name gives `first_second_third` in lower case |
| Naming.SnakeTailAppend | generate_class.py:51-53 | `SnakeTail`, the reference's part after the first character (`_` before each upper-case letter, every character lower-cased), of a concatenation is the concatenation of the two tails |
| Naming.ExampleFooBarBaz | generate_class.py:51-53 | `FooBarBaz` gives `foo_bar_baz` |
| Naming.ExampleWidget | generate_class.py:51-53 | `Widget` gives `widget` |
| Naming.ExampleBaseWidget | generate_class.py:51-53 | `BaseWidget` gives `base_widget` |
| Naming.ExampleMyWidget | generate_class.py:51-53 | `MyWidget` gives `my_widget` |
| Paths.GenerateFileName | generate_class.py:46-49 | the path ends in `.h`; without a library it is the name plus `.h`; with one it is the library, `/`, the name and `.h` |
| Paths.IncludePathRoundTrip | generate_class.py:46-49 | for a name without `/`, splitting the path at its last `/` and dropping `.h` gives back the library option and the name |
| Paths.IncludePathInjective | generate_class.py:46-49 | two (library, name) pairs with names without `/` never share an include path |
| Emitter.RepeatShape | generate_class.py:36 | `tab * level` has `level` times the tab's length, holds only the tab's characters, and is empty when `level <= 0` |
| Emitter.RepeatAdd | generate_class.py:36 | for counts of 0 or more, copies of the tab add up: `a + b` copies are `a` copies then `b` copies |
| Emitter.FormatLineDeeper | generate_class.py:33-36 | for a level of 0 or more, a line written one level deeper is the same line with one more tab in front |
| Emitter.CommentRule | generate_class.py:43-44 | the divider is `//` and 98 dashes, 100 characters |
| Emitter.CppGenerator.constructor | generate_class.py:29-32 | a new generator has its file name and tab (two spaces by default), level 0 and an empty file |
| Emitter.CppGenerator.Indent | generate_class.py:33-34 | the level moves by the signed amount and nothing is written |
| Emitter.CppGenerator.Line | generate_class.py:35-36 | exactly one line (indent, text, newline) is appended at the current level; the level is unchanged |
| Emitter.CppGenerator.Public | generate_class.py:37-40 | `public:` is written one level shallower, the level is restored, and the returned guard adds 0 on entry and on exit |
| Emitter.CppGenerator.Classdef | generate_class.py:41-42 | returns a new class scope for this generator with the given name and base; nothing is written |
| Emitter.CppGenerator.CommentLine | generate_class.py:43-44 | appends the divider at the current level |
| Emitter.Indenter.constructor | generate_class.py:6-9 | the guard keeps its generator and its entry and exit amounts, 1 and -1 by default |
| Emitter.Indenter.Enter | generate_class.py:10-11 | entry moves the level by the entry amount and writes nothing |
| Emitter.Indenter.Exit | generate_class.py:12-13 | exit moves the level by the exit amount and writes nothing |
| Emitter.ClassScope.constructor | generate_class.py:16-19 | the scope keeps its name, base and generator |
| Emitter.ClassScope.Enter | generate_class.py:20-23 | entry writes `class N` (with ` : B` exactly when a base is given) and `{` at the outer level, then goes one level deeper |
| Emitter.ClassScope.Exit | generate_class.py:24-26 | exit comes back one level and writes `};` there |
| Driver.WriteClassDeclaration | generate_class.py:83-86 | the class block: header and `{` at depth d, `public:` at d, constructor and destructor (with `virtual ` when asked) at d+1, `};` at d; the level ends at d |
| Driver.WriteHeader | generate_class.py:69-90 | the header file is exactly `HeaderLines`: `#pragma once`, the base include, the namespace opening, the class block, the namespace closing; the level ends at 0 |
| Driver.WriteDefinitions | generate_class.py:105-114 | two definitions, each after a divider: `N::N()` and `N::~N()`, each followed by `{` and `}` on lines of their own |
| Driver.WriteSource | generate_class.py:92-118 | the implementation file is exactly `SourceLines`: the precompiled include, the class's own include, the namespace opening, the definitions, the namespace closing; the level ends at 0 |
| Driver.GenerateClass | generate_class.py:66-118 | two new generators named `<stem>.h` and `<stem>.cc`, where the stem comes from the class name, holding exactly the header and implementation layouts, both at level 0 |
| Driver.DeeperStartsWithTab | generate_class.py:36 | every line written at depth 1 or more starts with the two-space tab |
| Driver.HeaderNamespaceWraps | generate_class.py:78-90 | with a namespace, the header's line after the prologue opens `namespace N {`, its last line is `}`, and the six class lines between them are indented |
| Driver.SourceNamespaceWraps | generate_class.py:100-118 | with a namespace, the implementation file opens `namespace N {` after its includes, ends with `}`, and the nine definition lines between them are indented |
| Driver.DefinitionsIndented | generate_class.py:103-114 | inside a namespace, all nine lines of the two definitions start with the tab |
| Driver.PrecompiledFirst | generate_class.py:94-97 | with the precompiled flag, `precompiled.h` is included first and the class's own header second |
| Driver.ClassBlockBalanced | generate_class.py:83-86 | when the names given hold no braces, the braces of the class block balance, and none is closed before it is opened |
| Driver.DefinitionsBalanced | generate_class.py:105-114 | when the names given hold no braces, the braces of the two definitions balance, and none is closed before it is opened |
| Driver.NamespaceWrapped | generate_class.py:78-81 | when the names given hold no braces, the namespace block, when there is one, balances around a balanced body placed after balanced lines |
| Driver.HeaderBracesBalanced | generate_class.py:69-90 | when the names given hold no braces, every brace opened in the header is closed, and none is closed before it is opened |
| Driver.SourceBracesBalanced | generate_class.py:92-118 | when the names given hold no braces, every brace opened in the implementation file is closed, and none is closed before it is opened |
| Driver.ExampleWidgetHeader | generate_class.py:69-90 | `Widget` with no options gives the header `#pragma once`, a blank line, `class Widget`, `{`, `public:`, `  Widget();`, `  ~Widget();`, `};` |
| Driver.ExampleWidgetSource | generate_class.py:92-118 | `Widget` with no options gives the implementation file `#include "widget.h"`, a blank line, then the divider, `Widget::Widget()`, `{`, `}`, a blank line, the divider, `Widget::~Widget()`, `{`, `}` |
| Driver.ExampleMyWidgetHeader | generate_class.py:69-90 | `MyWidget` with base `BaseWidget`, library `lib` and a virtual destructor gives the header `#pragma once`, a blank line, `#include "lib/base_widget.h"`, a blank line, `class MyWidget : BaseWidget`, `{`, `public:`, `  MyWidget();`, `  virtual ~MyWidget();`, `};` |

## Left out

- The command line: `optparse`, the help texts and the usage error when no class name is given (generate_class.py:55-64). The model starts from the parsed `Options` record.
- File I/O: `open(filename, "w")` and the writes. A generator's file is its `lines` field, and each write appends one string. Open errors and partial writes are not modelled.
- The `re` engine: the pattern `[A-Z][^A-Z]*` is modelled by a direct scan, `FindWords`, and no other pattern is.
- Naming.Lower: lower-cases ASCII A–Z only. Python's `str.lower` also lower-cases non-ASCII upper-case letters, and those can occur inside a word because `[^A-Z]` lets them through.
- `with` blocks: the model runs `Enter`, the body, then `Exit`. An exception raised inside the block, which would still run `__exit__`, is not modelled.
- Driver.HeaderBracesBalanced and Driver.SourceBracesBalanced assume that the class, namespace, library and base names hold no `{` or `}`. The generator does not check the names, and a name with braces can unbalance the files.
