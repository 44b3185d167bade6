/** The C dialect (`CGen`): flat prototypes with an optional doxygen block,
    and `#include <...>` lists. It provides no class operations, so those
    fall through to the failing base versions. */
module CGen {
  import opened Strings
  import opened Wrappers
  import opened Fragments
  import LangGen

  /** A C generator is determined by its author alone. */
  datatype Generator = Generator(author: string)

  /** The base state `CGen.__init__` sets up: the author, language "C" and
      header extension ".h". */
  function Base(c: Generator): (g: LangGen.Generator)
    ensures g.author == c.author && g.language == "C" && g.headerExt == ".h"
  {
    LangGen.Generator(c.author, "C", ".h")
  }

  /** With the ".h" extension the guard symbol is the upper-cased file name
      followed by "_H", and it always exists. */
  lemma GuardSuffixIsH(c: Generator, filename: string)
    ensures LangGen.GuardSymbol(Base(c), filename) == Ok(Upper(filename) + "_H")
  {
    assert ".h" == "" + "." + "h" + "";
    LangGen.GuardSuffix(Base(c), filename, "", "h", "");
    assert UpperChar('h') == 'H';
    assert Upper("h") == "H" by {
      assert Upper("h") == [UpperChar('h')] + Upper("h"[1..]);
      assert "h"[1..] == "";
    }
    var u := Upper(filename);
    assert LangGen.GuardSymbol(Base(c), filename) == Ok(u + "_" + Upper("h"));
    assert u + "_" + Upper("h") == u + ("_" + "H");
    assert "_" + "H" == "_H";
  }

  /** The prototype line: `ret name(arg1, arg2, ...);` with the opaque
      argument texts joined by ", ". */
  function Prototype(retVal: string, funcName: string, arguments: seq<string>): string
  {
    retVal + " " + funcName + "(" + Join(arguments, ", ") + ");"
  }

  /** What `add_function_definition` returns: the doxygen block over the
      argument texts when `doxygenReady`, then the prototype on a line of
      its own. */
  function Declaration(retVal: string, funcName: string, arguments: seq<string>, doxygenReady: bool): string
  {
    Documented(doxygenReady, funcName, retVal, arguments, Prototype(retVal, funcName, arguments))
  }

  /** The doxygen loop of `add_function_definition`: one `@param` line per
      argument text, in order, appended to `text`. */
  method AppendParamDocs(text: string, arguments: seq<string>) returns (r: string)
    ensures r == text + ParamLines(arguments)
  {
    r := text;
    var i := 0;
    while i < |arguments|
      invariant 0 <= i <= |arguments|
      invariant r == text + ParamLines(arguments[..i])
    {
      ParamLinesSnoc(arguments[..i], arguments[i]);
      assert arguments[..i + 1] == arguments[..i] + [arguments[i]];
      r := r + " * @param " + arguments[i] + "\n";
      i := i + 1;
    }
    assert arguments[..i] == arguments;
  }

  /** The argument loop: each argument text, a comma and a space after each
      but the last, appended to `text`. */
  method AppendArguments(text: string, arguments: seq<string>) returns (r: string)
    ensures r == text + Join(arguments, ", ")
  {
    JoinPrefixEnds(arguments, ", ");
    var n := |arguments|;
    r := text;
    var i := 0;
    while i < n
      invariant 0 <= i <= n
      invariant r == text + JoinPrefix(arguments, ", ", i)
    {
      JoinPrefixStep(arguments, ", ", i);
      if i == n - 1 {
        r := r + arguments[i];
      } else {
        r := r + (arguments[i] + ", ");
      }
      i := i + 1;
    }
  }

  /** `add_function_definition`, one `+=` at a time as the generator does it. */
  method FunctionDefinition(retVal: string, funcName: string, arguments: seq<string>, doxygenReady: bool)
    returns (funcStr: string)
    ensures funcStr == Declaration(retVal, funcName, arguments, doxygenReady)
  {
    funcStr := "";
    if doxygenReady {
      funcStr := "\n\n/**\n * @brief " + funcName + "\n";
      funcStr := AppendParamDocs(funcStr, arguments);
      funcStr := funcStr + " * @return " + retVal + "\n";
      funcStr := funcStr + " */";
    }
    ghost var doc := funcStr;
    DocPart(funcName, retVal, arguments, doxygenReady, doc);
    funcStr := funcStr + "\n" + retVal + " " + funcName + "(";
    ghost var head := funcStr;
    funcStr := AppendArguments(funcStr, arguments);
    ghost var body := funcStr;
    funcStr := funcStr + ");\n";
    Assembled(retVal, funcName, arguments, doxygenReady, doc, head, body, funcStr);
  }

  lemma DocPart(funcName: string, retVal: string, arguments: seq<string>, doxygenReady: bool, doc: string)
    requires doxygenReady ==>
      doc == "\n\n/**\n * @brief " + funcName + "\n" + ParamLines(arguments) + " * @return " + retVal + "\n" + " */"
    requires !doxygenReady ==> doc == ""
    ensures doc == if doxygenReady then DocBlock(funcName, retVal, arguments) else ""
  {
  }

  lemma Assembled(retVal: string, funcName: string, arguments: seq<string>, doxygenReady: bool,
                  doc: string, head: string, body: string, text: string)
    requires doc == if doxygenReady then DocBlock(funcName, retVal, arguments) else ""
    requires head == doc + "\n" + retVal + " " + funcName + "("
    requires body == head + Join(arguments, ", ")
    requires text == body + ");\n"
    ensures text == Declaration(retVal, funcName, arguments, doxygenReady)
  {
    assert ");\n" == ");" + "\n";
    assert text == doc + "\n" + Prototype(retVal, funcName, arguments) + "\n";
  }

  /** Read back line by line (no newline in the names, the return type or
      the arguments): the doxygen lines exactly when `doxygenReady`, else a
      single blank line, then the prototype line, then nothing. */
  lemma DeclarationLines(retVal: string, funcName: string, arguments: seq<string>, doxygenReady: bool)
    requires OneLine(retVal) && OneLine(funcName)
    requires forall i :: 0 <= i < |arguments| ==> OneLine(arguments[i])
    ensures Split(Declaration(retVal, funcName, arguments, doxygenReady), '\n')
         == (if doxygenReady then DocLines(funcName, retVal, arguments) else [""]) + [Prototype(retVal, funcName, arguments), ""]
  {
    JoinKeepsAbsent(arguments, ", ", '\n');
    DocumentedSplit(doxygenReady, funcName, retVal, arguments, Prototype(retVal, funcName, arguments));
  }

  /** Inside the parentheses of the prototype, argument k stands verbatim
      at its offset, and the last argument is followed directly by ");":
      no separator after it. With no arguments the prototype is
      `ret name();`. */
  lemma PrototypeArguments(retVal: string, funcName: string, arguments: seq<string>)
    ensures arguments == [] ==> Prototype(retVal, funcName, arguments) == retVal + " " + funcName + "();"
    ensures var p, start := Prototype(retVal, funcName, arguments), |retVal| + |funcName| + 2;
      forall k :: 0 <= k < |arguments| ==>
        start + Offset(arguments, ", ", k) + |arguments[k]| <= |p| &&
        p[start + Offset(arguments, ", ", k) .. start + Offset(arguments, ", ", k) + |arguments[k]|] == arguments[k]
    ensures |arguments| > 0 ==>
      var p, start, last := Prototype(retVal, funcName, arguments), |retVal| + |funcName| + 2, |arguments| - 1;
      start + Offset(arguments, ", ", last) + |arguments[last]| == |p| - 2 &&
      p[|p| - 2 ..] == ");"
  {
    if arguments == [] {
      assert Join(arguments, ", ") == "";
    }
    forall k | 0 <= k < |arguments|
      ensures |retVal| + |funcName| + 2 + Offset(arguments, ", ", k) + |arguments[k]| <= |Prototype(retVal, funcName, arguments)|
      ensures Prototype(retVal, funcName, arguments)[|retVal| + |funcName| + 2 + Offset(arguments, ", ", k)
                .. |retVal| + |funcName| + 2 + Offset(arguments, ", ", k) + |arguments[k]|] == arguments[k]
    {
      PrototypePieceAt(retVal, funcName, arguments, k);
    }
    if |arguments| > 0 {
      PrototypeLast(retVal, funcName, arguments);
    }
  }

  lemma PrototypePieceAt(retVal: string, funcName: string, arguments: seq<string>, k: nat)
    requires k < |arguments|
    ensures var p, o := Prototype(retVal, funcName, arguments), |retVal| + |funcName| + 2 + Offset(arguments, ", ", k);
      o + |arguments[k]| <= |p| && p[o .. o + |arguments[k]|] == arguments[k]
  {
    var pre, j := retVal + " " + funcName + "(", Join(arguments, ", ");
    assert Prototype(retVal, funcName, arguments) == pre + j + ");";
    JoinPieceAt(arguments, ", ", k);
    PieceInside(pre, j, ");", Offset(arguments, ", ", k), |arguments[k]|);
  }

  lemma PrototypeLast(retVal: string, funcName: string, arguments: seq<string>)
    requires |arguments| > 0
    ensures var p, last := Prototype(retVal, funcName, arguments), |arguments| - 1;
      |retVal| + |funcName| + 2 + Offset(arguments, ", ", last) + |arguments[last]| == |p| - 2 &&
      p[|p| - 2 ..] == ");"
  {
    var pre, j := retVal + " " + funcName + "(", Join(arguments, ", ");
    var p := Prototype(retVal, funcName, arguments);
    assert p == pre + j + ");";
    JoinEndsWithLast(arguments, ", ");
    assert p[|p| - 2 ..] == ");";
  }

  lemma PieceInside(pre: string, mid: string, post: string, o: nat, len: nat)
    requires o + len <= |mid|
    ensures |pre| + o + len <= |pre + mid + post|
    ensures (pre + mid + post)[|pre| + o .. |pre| + o + len] == mid[o .. o + len]
  {
  }

  /** `add_includes`: one `#include <h>` per header, in input order, joined
      by newlines with none after the last; the empty list gives the empty
      text, any other list a non-empty one. */
  function Includes(includes: seq<string>): (r: string)
    ensures r == "" <==> includes == []
  {
    var ds := IncludeDirectives(includes);
    var r := Join(ds, "\n");
    if |includes| > 0 then JoinPieceAt(ds, "\n", 0); r else r
  }

  /** Read back line by line, the include list is exactly one directive per
      header in input order (headers without a newline). */
  lemma IncludesLines(includes: seq<string>)
    requires |includes| > 0
    requires forall i :: 0 <= i < |includes| ==> OneLine(includes[i])
    ensures Split(Includes(includes), '\n') == IncludeDirectives(includes)
  {
    var ds := IncludeDirectives(includes);
    assert forall i :: 0 <= i < |ds| ==> '\n' !in ds[i];
    SplitJoin(ds, '\n');
  }

  /** `add_class_definition_begin` is not provided by the C dialect: the
      inherited version fails, naming C. */
  function ClassDefinitionBegin(c: Generator): (r: Result<string, LangGen.Error>)
    ensures r == Err(LangGen.NotImplementedError("C" + LangGen.NotSupported))
  {
    LangGen.ClassDefinitionBegin(Base(c))
  }

  /** `add_class_definition_end` is not provided either and fails the same way. */
  function ClassDefinitionEnd(c: Generator): (r: Result<string, LangGen.Error>)
    ensures r == Err(LangGen.NotImplementedError("C" + LangGen.NotSupported))
  {
    LangGen.ClassDefinitionEnd(Base(c))
  }
}
