/** The shared base of every generator (`LangGen`): the boilerplate that
    depends only on the generator's author, language and header extension,
    and the four dialect operations that fail unless a dialect provides
    them. */
module LangGen {
  import opened Strings
  import opened Wrappers

  /** The two exceptions the base can raise. */
  datatype Error =
    | NotImplementedError(message: string)
    | IndexError(message: string)

  /** What `LangGen.__init__` stores, unchanged: the author, the language
      name and the header extension (each defaults to ""). */
  datatype Generator = Generator(author: string, language: string, headerExt: string)

  const CopyrightPrefix := "/** Copyright (c) 2020 "
  const CopyrightSuffix := " **/\n"

  /** The one-line copyright banner: the author between a fixed prefix and
      suffix, nothing else of the generator in it. */
  function Copyright(g: Generator): (r: string)
    ensures |r| == |CopyrightPrefix| + |g.author| + |CopyrightSuffix|
    ensures r[..|CopyrightPrefix|] == CopyrightPrefix
    ensures r[|CopyrightPrefix| .. |CopyrightPrefix| + |g.author|] == g.author
    ensures r[|CopyrightPrefix| + |g.author| ..] == CopyrightSuffix
  {
    CopyrightPrefix + g.author + CopyrightSuffix
  }

  /** Two generators print the same banner exactly when they have the same
      author: language and header extension play no part, and different
      authors always give different banners. */
  lemma CopyrightDeterminedByAuthor(g1: Generator, g2: Generator)
    ensures Copyright(g1) == Copyright(g2) <==> g1.author == g2.author
  {
    if Copyright(g1) == Copyright(g2) {
      assert |g1.author| == |g2.author|;
      assert g1.author == Copyright(g1)[|CopyrightPrefix| .. |CopyrightPrefix| + |g1.author|];
    }
  }

  /** Start of the file block's brief line. */
  const BriefIntro := " * @brief Contains datatypes, " + "definitions for "

  /** The three lines of the file doxygen block that carry names. */
  function FileLine(g: Generator, filename: string): string { " * @file " + filename + g.headerExt }
  function BriefLine(filename: string): string { BriefIntro + filename + " module " }
  function AuthorLine(g: Generator): string { " * @author " + g.author + " " }

  /** The lines of the file doxygen block, without their newlines. */
  function FileDoxygenLines(g: Generator, filename: string): seq<string>
  {
    ["", "/**", FileLine(g, filename), BriefLine(filename), AuthorLine(g), " */", ""]
  }

  /** `add_file_doxygen_guard`: a doxygen comment naming the file
      `filename + headerExt` after `@file`, the module `filename` in the
      brief line and the author after `@author`. It is exactly its lines,
      joined by newlines (so it opens with an empty line and ends with a
      newline). */
  function FileDoxygenGuard(g: Generator, filename: string): (r: string)
    ensures r == Join(FileDoxygenLines(g, filename), "\n")
  {
    BlockJoin(FileLine(g, filename), BriefLine(filename), AuthorLine(g));
    "\n" + "/**" + "\n" + FileLine(g, filename) + "\n" + BriefLine(filename) + "\n"
    + AuthorLine(g) + "\n" + " */" + "\n"
  }

  lemma BlockJoin(a: string, b: string, c: string)
    ensures Join(["", "/**", a, b, c, " */", ""], "\n")
         == "\n" + "/**" + "\n" + a + "\n" + b + "\n" + c + "\n" + " */" + "\n"
  {
    var l := ["", "/**", a, b, c, " */", ""];
    JoinSeven(l, "\n");
    assert l[0] == "" && l[6] == "";
  }

  /** Read back line by line, the file doxygen block is exactly its lines,
      so the file name, module name and author each sit on their own line. */
  lemma FileDoxygenSplit(g: Generator, filename: string)
    requires '\n' !in filename && '\n' !in g.headerExt && '\n' !in g.author
    ensures Split(FileDoxygenGuard(g, filename), '\n') == FileDoxygenLines(g, filename)
  {
    var l := FileDoxygenLines(g, filename);
    assert '\n' !in l[2] && '\n' !in l[3] && '\n' !in l[4];
    assert forall i :: 0 <= i < |l| ==> '\n' !in l[i];
    SplitJoin(l, '\n');
  }

  const OutOfRange := IndexError("list index out of range")

  /** The guard symbol `upper(filename) + "_" + upper(headerExt.split('.')[1])`.
      It exists exactly when the extension holds a dot (otherwise index 1 of
      the split is out of range); it starts with the upper-cased file name
      and an underscore, and its remainder is the upper-cased second piece
      of the extension, which holds no dot. */
  function GuardSymbol(g: Generator, filename: string): (r: Result<string, Error>)
    ensures r.Ok? <==> '.' in g.headerExt
    ensures r.Err? ==> r.error == OutOfRange
    ensures r.Ok? ==> (|r.value| > |filename|
                       && r.value[..|filename|] == Upper(filename)
                       && r.value[|filename|] == '_'
                       && '.' !in r.value[|filename| + 1 ..]
                       && forall i :: 0 <= i < |r.value| ==> !IsLower(r.value[i]))
    ensures r.Ok? ==> r.value == Upper(filename) + "_" + Upper(Split(g.headerExt, '.')[1])
  {
    var parts := Split(g.headerExt, '.');
    if |parts| > 1 then
      var suffix := Upper(parts[1]);
      UpperKeeps(parts[1], '.');
      var sym := Upper(filename) + "_" + suffix;
      assert sym[|filename| + 1 ..] == suffix;
      Ok(sym)
    else
      Err(OutOfRange)
  }

  /** For an extension `p.x` or `p.x.rest` (no dot in `p` or `x`) the
      guard symbol is the upper-cased file name, an underscore and the
      upper-cased `x`: the text between the first and the second dot. */
  lemma GuardSuffix(g: Generator, filename: string, p: string, x: string, tail: string)
    requires g.headerExt == p + "." + x + tail
    requires '.' !in p && '.' !in x
    requires tail == "" || tail[0] == '.'
    ensures GuardSymbol(g, filename) == Ok(Upper(filename) + "_" + Upper(x))
  {
    assert g.headerExt == p + ['.'] + (x + tail);
    SplitAfterRun(p, x + tail, '.');
    if tail == "" {
      assert x + tail == x;
      SplitWithout(x, '.');
    } else {
      assert x + tail == x + ['.'] + tail[1..];
      SplitAfterRun(x, tail[1..], '.');
    }
    assert Split(g.headerExt, '.')[1] == x;
  }

  /** The three lines of a header guard, without their newlines. */
  function IfndefLine(sym: string): string { "#ifndef " + sym }
  function DefineLine(sym: string): string { "#define " + sym }
  function EndifLine(sym: string): string { "#endif /*! " + sym + " */" }

  /** `add_headerguard_begin`: the `#ifndef` and `#define` lines of the guard. */
  function HeaderGuardBegin(g: Generator, filename: string): (r: Result<string, Error>)
    ensures r.Ok? <==> '.' in g.headerExt
    ensures r.Err? ==> r.error == OutOfRange
  {
    match GuardSymbol(g, filename)
    case Ok(sym) => Ok(IfndefLine(sym) + "\n" + DefineLine(sym) + "\n")
    case Err(e) => Err(e)
  }

  /** `add_headerguard_end`: the closing `#endif` line of the guard, after
      an empty line. */
  function HeaderGuardEnd(g: Generator, filename: string): (r: Result<string, Error>)
    ensures r.Ok? <==> '.' in g.headerExt
    ensures r.Err? ==> r.error == OutOfRange
  {
    match GuardSymbol(g, filename)
    case Ok(sym) => Ok("\n" + EndifLine(sym) + "\n")
    case Err(e) => Err(e)
  }

  /** Begin and end of the guard, for one generator and one file name,
      succeed or fail together, and both carry one and the same symbol: the
      `#ifndef` line, the `#define` line and the `#endif` comment. */
  lemma GuardsMatch(g: Generator, filename: string)
    ensures HeaderGuardBegin(g, filename).Ok? <==> HeaderGuardEnd(g, filename).Ok?
    ensures HeaderGuardBegin(g, filename).Ok? ==>
      var sym := GuardSymbol(g, filename).value;
      HeaderGuardBegin(g, filename).value == "#ifndef " + sym + "\n" + "#define " + sym + "\n" &&
      HeaderGuardEnd(g, filename).value == "\n" + "#endif /*! " + sym + " */" + "\n"
  {
  }

  /** Read back line by line: the begin fragment is the `#ifndef SYM` and
      `#define SYM` lines, the end fragment is the single `#endif /*! SYM */`
      line between a blank line and the final newline. */
  lemma GuardLines(g: Generator, filename: string)
    requires '.' in g.headerExt && '\n' !in filename && '\n' !in g.headerExt
    ensures var sym := GuardSymbol(g, filename).value;
      Split(HeaderGuardBegin(g, filename).value, '\n') == [IfndefLine(sym), DefineLine(sym), ""] &&
      Split(HeaderGuardEnd(g, filename).value, '\n') == ["", EndifLine(sym), ""]
  {
    var sym := GuardSymbol(g, filename).value;
    SymbolOneLine(g, filename);
    GuardLinesOneLine(sym);
    SplitTwoLines(IfndefLine(sym), DefineLine(sym), '\n');
    SplitEnclosedLine(EndifLine(sym), '\n');
  }

  /** A guard symbol built from newline-free names holds no newline. */
  lemma SymbolOneLine(g: Generator, filename: string)
    requires '.' in g.headerExt && '\n' !in filename && '\n' !in g.headerExt
    ensures '\n' !in GuardSymbol(g, filename).value
  {
    var parts := Split(g.headerExt, '.');
    SplitKeepsAbsent(g.headerExt, '.', '\n');
    assert parts[1] in parts;
    UpperKeeps(filename, '\n');
    UpperKeeps(parts[1], '\n');
  }

  lemma GuardLinesOneLine(sym: string)
    requires '\n' !in sym
    ensures '\n' !in IfndefLine(sym) && '\n' !in DefineLine(sym) && '\n' !in EndifLine(sym)
  {
    assert '\n' !in "#ifndef " && '\n' !in "#define ";
    assert '\n' !in "#endif /*! " && '\n' !in " */";
  }

  /** What follows the language name in the "not supported" message. */
  const NotSupported := " language specific" + " feature not supported"

  /** The error every operation a dialect has not provided raises. */
  function Unsupported(g: Generator): Error
  {
    NotImplementedError(g.language + NotSupported)
  }

  /** The base `add_function_definition`: always fails, naming the language. */
  function FunctionDefinition(g: Generator): (r: Result<string, Error>)
    ensures r.Err? && r.error.NotImplementedError?
    ensures r.error.message == g.language + NotSupported
  {
    Err(Unsupported(g))
  }

  /** The base `add_includes`: always fails, naming the language. */
  function Includes(g: Generator, includes: seq<string>): (r: Result<string, Error>)
    ensures r.Err? && r.error.NotImplementedError?
    ensures r.error.message == g.language + NotSupported
  {
    Err(Unsupported(g))
  }

  /** The base `add_class_definition_begin`: always fails, naming the language. */
  function ClassDefinitionBegin(g: Generator): (r: Result<string, Error>)
    ensures r.Err? && r.error.NotImplementedError?
    ensures r.error.message == g.language + NotSupported
  {
    Err(Unsupported(g))
  }

  /** The base `add_class_definition_end`: always fails, naming the language. */
  function ClassDefinitionEnd(g: Generator): (r: Result<string, Error>)
    ensures r.Err? && r.error.NotImplementedError?
    ensures r.error.message == g.language + NotSupported
  {
    Err(Unsupported(g))
  }
}
