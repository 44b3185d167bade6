/** The C++ dialect (`CppGen`): virtual interface declarations, their
    derived counterparts (gMock `MOCK_METHODn` registrations in mock mode,
    `override` declarations otherwise), class openers and closers, include
    blocks that can pull in the test frameworks inside an `extern "C"`
    wrapper, and call-forwarding bodies for a mock source. */
module CppGen {
  import opened Strings
  import opened Wrappers
  import opened Fragments
  import LangGen

  /** One typed parameter, `{"dtype": ..., "value": ...}`. */
  datatype Arg = Arg(dtype: string, value: string)

  /** What `CppGen.__init__` keeps: the author, the header extension (both
      default to "") and the mock flag (default false). */
  datatype Generator = Generator(author: string, ext: string, mockAttr: bool)

  /** The base state: the author, language "C++" and the given extension. */
  function Base(c: Generator): (g: LangGen.Generator)
    ensures g.author == c.author && g.language == "C++" && g.headerExt == c.ext
  {
    LangGen.Generator(c.author, "C++", c.ext)
  }

  /** With the default (empty) extension there is no guard symbol: both
      guard operations fail with the index error. */
  lemma DefaultExtHasNoGuard(author: string, mockAttr: bool, filename: string)
    ensures LangGen.HeaderGuardBegin(Base(Generator(author, "", mockAttr)), filename) == Err(LangGen.OutOfRange)
    ensures LangGen.HeaderGuardEnd(Base(Generator(author, "", mockAttr)), filename) == Err(LangGen.OutOfRange)
  {
  }

  /** Each parameter as `dtype value`. */
  function Rendered(args: seq<Arg>): (r: seq<string>)
    ensures |r| == |args|
    ensures forall i :: 0 <= i < |args| ==> r[i] == args[i].dtype + " " + args[i].value
  {
    seq(|args|, i requires 0 <= i < |args| => args[i].dtype + " " + args[i].value)
  }

  /** Each parameter's name alone. */
  function Values(args: seq<Arg>): (r: seq<string>)
    ensures |r| == |args|
    ensures forall i :: 0 <= i < |args| ==> r[i] == args[i].value
  {
    seq(|args|, i requires 0 <= i < |args| => args[i].value)
  }

  /** The parameter list of a declaration or a signature. */
  function ParamList(args: seq<Arg>): string
  {
    Join(Rendered(args), ", ")
  }

  /** What precedes the return type: `virtual` on base declarations only. */
  function VirtualPrefix(derivedClass: bool): string
  {
    if derivedClass then "" else " virtual "
  }

  /** Everything up to the opening parenthesis of the parameter list: the
      gMock macro with its arity for a derived declaration in mock mode,
      `ret name(` otherwise. */
  function Opening(c: Generator, retVal: string, funcName: string, arity: nat, derivedClass: bool): string
  {
    if c.mockAttr && derivedClass
    then "MOCK_METHOD" + NatToString(arity) + "(" + funcName + ", " + retVal + "("
    else retVal + " " + funcName + "("
  }

  /** What follows the parameter list. */
  function Closing(c: Generator, derivedClass: bool): string
  {
    if !derivedClass then ") = 0;"
    else if c.mockAttr then "));"
    else ") override;"
  }

  /** The declaration line, without its leading and trailing newline. */
  function DeclarationLine(c: Generator, retVal: string, funcName: string, args: seq<Arg>, derivedClass: bool): string
  {
    VirtualPrefix(derivedClass) + Opening(c, retVal, funcName, |args|, derivedClass)
    + ParamList(args) + Closing(c, derivedClass)
  }

  /** What `add_function_definition` returns: the doxygen block over the
      `dtype value` texts when `doxygenReady`, then the declaration line. */
  function Declaration(c: Generator, retVal: string, funcName: string, args: seq<Arg>, doxygenReady: bool, derivedClass: bool): string
  {
    Documented(doxygenReady, funcName, retVal, Rendered(args), DeclarationLine(c, retVal, funcName, args, derivedClass))
  }

  lemma LineBreaks()
    ensures "\n virtual " == "\n" + " virtual "
    ensures "));\n" == "));" + "\n"
    ensures ") = 0;\n" == ") = 0;" + "\n"
    ensures ") override;\n" == ") override;" + "\n"
  {
  }

  /** The doxygen loop of `add_function_definition`: one `@param dtype value`
      line per parameter, in order, appended to `text`. */
  method AppendParamDocs(text: string, arguments: seq<Arg>) returns (r: string)
    ensures r == text + ParamLines(Rendered(arguments))
  {
    ghost var rendered := Rendered(arguments);
    r := text;
    var i := 0;
    while i < |arguments|
      invariant 0 <= i <= |arguments|
      invariant r == text + ParamLines(rendered[..i])
    {
      ParamLinesSnoc(rendered[..i], rendered[i]);
      assert rendered[..i + 1] == rendered[..i] + [rendered[i]];
      r := r + " * @param " + (arguments[i].dtype + " " + arguments[i].value) + "\n";
      i := i + 1;
    }
    assert rendered[..i] == rendered;
  }

  /** The parameter loop shared by `add_function_definition` and
      `add_function_implementation`: `dtype value` per parameter, a comma
      and a space after each but the last, appended to `text`. */
  method AppendParams(text: string, arguments: seq<Arg>) returns (r: string)
    ensures r == text + ParamList(arguments)
  {
    ghost var rendered := Rendered(arguments);
    JoinPrefixEnds(rendered, ", ");
    var n := |arguments|;
    r := text;
    var i := 0;
    while i < n
      invariant 0 <= i <= n
      invariant r == text + JoinPrefix(rendered, ", ", i)
    {
      JoinPrefixStep(rendered, ", ", i);
      if i == n - 1 {
        r := r + (arguments[i].dtype + " " + arguments[i].value);
      } else {
        r := r + (arguments[i].dtype + " " + arguments[i].value + ", ");
      }
      i := i + 1;
    }
  }

  /** `add_function_definition`, one `+=` at a time as the generator does it. */
  method FunctionDefinition(c: Generator, retVal: string, funcName: string, arguments: seq<Arg>, doxygenReady: bool, derivedClass: bool)
    returns (funcStr: string)
    ensures funcStr == Declaration(c, retVal, funcName, arguments, doxygenReady, derivedClass)
  {
    funcStr := "";
    if doxygenReady {
      funcStr := "\n\n/**\n * @brief " + funcName + "\n";
      funcStr := AppendParamDocs(funcStr, arguments);
      funcStr := funcStr + " * @return " + retVal + "\n";
      funcStr := funcStr + " */";
    }
    ghost var doc := funcStr;
    DocPart(funcName, retVal, arguments, doxygenReady, doc);

    if !derivedClass {
      funcStr := funcStr + "\n virtual ";
    } else {
      funcStr := funcStr + "\n";
    }
    ghost var lead := funcStr;

    if c.mockAttr && derivedClass {
      funcStr := funcStr + ("MOCK_METHOD" + NatToString(|arguments|) + "(" + funcName + ", " + retVal + "(");
    } else {
      funcStr := funcStr + (retVal + " " + funcName + "(");
    }
    ghost var head := funcStr;
    HeadPart(c, retVal, funcName, |arguments|, derivedClass, doc, lead, head);

    funcStr := AppendParams(funcStr, arguments);
    ghost var body := funcStr;

    if c.mockAttr {
      if derivedClass {
        funcStr := funcStr + "));\n";
      } else {
        funcStr := funcStr + ") = 0;\n";
      }
    } else {
      if derivedClass {
        funcStr := funcStr + ") override;\n";
      } else {
        funcStr := funcStr + ") = 0;\n";
      }
    }
    Assembled(c, retVal, funcName, arguments, derivedClass, doc, head, body, funcStr);
  }

  lemma DocPart(funcName: string, retVal: string, args: seq<Arg>, doxygenReady: bool, doc: string)
    requires doxygenReady ==>
      doc == "\n\n/**\n * @brief " + funcName + "\n" + ParamLines(Rendered(args)) + " * @return " + retVal + "\n" + " */"
    requires !doxygenReady ==> doc == ""
    ensures doc == if doxygenReady then DocBlock(funcName, retVal, Rendered(args)) else ""
  {
  }

  lemma HeadPart(c: Generator, retVal: string, funcName: string, arity: nat, derivedClass: bool,
                 doc: string, lead: string, head: string)
    requires lead == doc + (if derivedClass then "\n" else "\n virtual ")
    requires head == lead + Opening(c, retVal, funcName, arity, derivedClass)
    ensures head == doc + "\n" + VirtualPrefix(derivedClass) + Opening(c, retVal, funcName, arity, derivedClass)
  {
    assert lead == doc + "\n" + VirtualPrefix(derivedClass) by { LineBreaks(); }
  }

  lemma Assembled(c: Generator, retVal: string, funcName: string, args: seq<Arg>, derivedClass: bool,
                  doc: string, head: string, body: string, text: string)
    requires head == doc + "\n" + VirtualPrefix(derivedClass) + Opening(c, retVal, funcName, |args|, derivedClass)
    requires body == head + ParamList(args)
    requires text == body + (if !derivedClass then ") = 0;\n" else if c.mockAttr then "));\n" else ") override;\n")
    ensures text == doc + "\n" + DeclarationLine(c, retVal, funcName, args, derivedClass) + "\n"
  {
    var closing := Closing(c, derivedClass);
    assert text == body + (closing + "\n") by { LineBreaks(); }
    Regroup(doc, VirtualPrefix(derivedClass), Opening(c, retVal, funcName, |args|, derivedClass), ParamList(args), closing);
  }

  lemma Regroup(doc: string, prefix: string, opening: string, params: string, closing: string)
    ensures doc + "\n" + prefix + opening + params + (closing + "\n")
         == doc + "\n" + (prefix + opening + params + closing) + "\n"
  {
  }

  /** A base-class declaration (`derivedClass` false) is the pure-virtual
      `virtual ret name(params) = 0;`, in mock mode and out of it alike. */
  lemma BaseDeclaration(c: Generator, retVal: string, funcName: string, args: seq<Arg>, doxygenReady: bool)
    ensures DeclarationLine(c, retVal, funcName, args, false)
         == " virtual " + retVal + " " + funcName + "(" + ParamList(args) + ") = 0;"
    ensures Declaration(c, retVal, funcName, args, doxygenReady, false)
         == Declaration(c.(mockAttr := !c.mockAttr), retVal, funcName, args, doxygenReady, false)
  {
  }

  /** A derived declaration outside mock mode is `ret name(params) override;`. */
  lemma OverrideDeclaration(c: Generator, retVal: string, funcName: string, args: seq<Arg>)
    requires !c.mockAttr
    ensures DeclarationLine(c, retVal, funcName, args, true)
         == retVal + " " + funcName + "(" + ParamList(args) + ") override;"
  {
    assert VirtualPrefix(true) == "";
  }

  /** A derived declaration in mock mode is the registration
      `MOCK_METHODn(name, ret(params));` whose arity n, read as a decimal
      number, is exactly the number of parameters. */
  lemma MockDeclaration(c: Generator, retVal: string, funcName: string, args: seq<Arg>)
    requires c.mockAttr
    ensures var n := NatToString(|args|);
      IsDigits(n) && DigitsValue(n) == |args| &&
      DeclarationLine(c, retVal, funcName, args, true)
        == "MOCK_METHOD" + n + "(" + funcName + ", " + retVal + "(" + ParamList(args) + "));"
  {
    NatToStringValue(|args|);
    var n := NatToString(|args|);
    var opening := "MOCK_METHOD" + n + "(" + funcName + ", " + retVal + "(";
    assert VirtualPrefix(true) + Opening(c, retVal, funcName, |args|, true) == opening;
    assert Closing(c, true) == "));";
  }

  /** Read back line by line (no newline in the names, the return type or
      the parameters): the doxygen lines, over `dtype value`, exactly when
      `doxygenReady`, else a single blank line; then the declaration line;
      then nothing. */
  lemma DeclarationLines(c: Generator, retVal: string, funcName: string, args: seq<Arg>, doxygenReady: bool, derivedClass: bool)
    requires OneLine(retVal) && OneLine(funcName)
    requires forall i :: 0 <= i < |args| ==> OneLine(args[i].dtype) && OneLine(args[i].value)
    ensures Split(Declaration(c, retVal, funcName, args, doxygenReady, derivedClass), '\n')
         == (if doxygenReady then DocLines(funcName, retVal, Rendered(args)) else [""])
            + [DeclarationLine(c, retVal, funcName, args, derivedClass), ""]
  {
    var rendered := Rendered(args);
    assert forall i :: 0 <= i < |rendered| ==> OneLine(rendered[i]) by {
      assert '\n' !in " ";
    }
    DeclarationOneLine(c, retVal, funcName, args, derivedClass);
    DocumentedSplit(doxygenReady, funcName, retVal, rendered, DeclarationLine(c, retVal, funcName, args, derivedClass));
  }

  /** A declaration built from newline-free names and parameters is one line. */
  lemma DeclarationOneLine(c: Generator, retVal: string, funcName: string, args: seq<Arg>, derivedClass: bool)
    requires OneLine(retVal) && OneLine(funcName)
    requires forall i :: 0 <= i < |args| ==> OneLine(args[i].dtype) && OneLine(args[i].value)
    ensures OneLine(DeclarationLine(c, retVal, funcName, args, derivedClass))
  {
    assert '\n' !in VirtualPrefix(derivedClass);
    assert '\n' !in Opening(c, retVal, funcName, |args|, derivedClass) by {
      DigitsOnly(NatToString(|args|), '\n');
      assert '\n' !in "MOCK_METHOD" && '\n' !in "(" && '\n' !in ", " && '\n' !in " ";
    }
    assert '\n' !in ParamList(args) by {
      var rendered := Rendered(args);
      assert forall i :: 0 <= i < |rendered| ==> '\n' !in rendered[i] by {
        assert '\n' !in " ";
      }
      JoinKeepsAbsent(rendered, ", ", '\n');
    }
    assert '\n' !in Closing(c, derivedClass);
  }

  /** The name the class is declared under: the derived name when given,
      else the base name. */
  function ClassName(baseClass: string, derivedClass: Option<string>): string
  {
    derivedClass.GetOr(baseClass)
  }

  /** `add_class_definition_begin`. */
  function ClassDefinitionBegin(c: Generator, baseClass: string, derivedClass: Option<string>): (r: string)
    ensures StartsWith(r, "\nclass " + ClassName(baseClass, derivedClass)
                          + (if derivedClass.Some? then " : public " + baseClass else "")
                          + " {\n public: \n")
    ensures c.mockAttr ==> EndsWith(r, " virtual ~" + ClassName(baseClass, derivedClass) + "()  {}\n")
    ensures !c.mockAttr ==> EndsWith(r, " {\n public: \n")
    ensures r == "\nclass " + ClassName(baseClass, derivedClass)
                 + (if derivedClass.Some? then " : public " + baseClass else "")
                 + " {\n public: \n"
                 + (if c.mockAttr then " virtual ~" + ClassName(baseClass, derivedClass) + "()  {}\n" else "")
  {
    var classStr := match derivedClass
      case None => "\nclass " + baseClass
      case Some(derived) => "\nclass " + derived + " : public " + baseClass;
    var classHead := classStr + " {\n public: \n";
    if c.mockAttr then
      var dtor := " virtual ~" + ClassName(baseClass, derivedClass) + "() " + " {}\n";
      assert dtor == " virtual ~" + ClassName(baseClass, derivedClass) + "()  {}\n";
      classHead + dtor
    else
      classHead
  }

  /** `add_class_definition_end`: the line `};` between newlines. */
  function ClassDefinitionEnd(): (r: string)
    ensures Split(r, '\n') == ["", "};", ""]
  {
    assert "\n};\n" == ['\n'] + "};" + ['\n'];
    assert '\n' !in "};";
    SplitEnclosedLine("};", '\n');
    "\n};\n"
  }

  /** Net brace depth a text opens: one for each `{`, minus one for each `}`. */
  function Depth(s: string): int
    decreases |s|
  {
    if |s| == 0 then 0
    else (if s[0] == '{' then 1 else if s[0] == '}' then -1 else 0) + Depth(s[1..])
  }

  lemma {:induction false} DepthAppend(a: string, b: string)
    ensures Depth(a + b) == Depth(a) + Depth(b)
    decreases |a|
  {
    if |a| > 0 {
      assert (a + b)[0] == a[0];
      assert (a + b)[1..] == a[1..] + b;
      DepthAppend(a[1..], b);
    } else {
      assert a + b == b;
    }
  }

  lemma {:induction false} DepthFree(s: string)
    requires '{' !in s && '}' !in s
    ensures Depth(s) == 0
    decreases |s|
  {
    if |s| > 0 {
      assert s[0] in s;
      assert forall ch :: ch in s[1..] ==> ch in s;
      DepthFree(s[1..]);
    }
  }

  /** The fixed pieces of the class opener and closer, split around their
      braces. */
  lemma BraceCounts()
    ensures Depth("{") == 1 && Depth("}") == -1
    ensures '{' !in "\nclass " && '}' !in "\nclass "
    ensures '{' !in " : public " && '}' !in " : public "
    ensures '{' !in "\n public: \n" && '}' !in "\n public: \n"
    ensures '{' !in " virtual ~" && '}' !in " virtual ~"
    ensures '{' !in "()  " && '}' !in "()  "
    ensures '{' !in ";\n" && '}' !in ";\n"
  {
    assert "{"[1..] == "";
    assert "}"[1..] == "";
  }

  /** A brace-free text, one brace, a brace-free text. */
  lemma DepthAround(pre: string, brace: string, post: string)
    requires '{' !in pre && '}' !in pre && '{' !in post && '}' !in post
    ensures Depth(pre + brace + post) == Depth(brace)
  {
    DepthFree(pre);
    DepthFree(post);
    DepthAppend(pre, brace);
    DepthAppend(pre + brace, post);
  }

  /** The opener's depth is one: `class X {` (or `class X : public B {`),
      the mock-mode destructor stub balanced on its own. */
  lemma OpenerDepth(c: Generator, baseClass: string, derivedClass: Option<string>)
    requires '{' !in baseClass && '}' !in baseClass
    requires derivedClass.Some? ==> '{' !in derivedClass.value && '}' !in derivedClass.value
    ensures Depth(ClassDefinitionBegin(c, baseClass, derivedClass)) == 1
  {
    BraceCounts();
    var name := ClassName(baseClass, derivedClass);
    var classStr := match derivedClass
      case None => "\nclass " + baseClass
      case Some(derived) => "\nclass " + derived + " : public " + baseClass;
    var classHead := classStr + " {\n public: \n";
    assert classHead == (classStr + " ") + "{" + "\n public: \n";
    DepthAround(classStr + " ", "{", "\n public: \n");
    if c.mockAttr {
      var dtor := " virtual ~" + name + "()  {}\n";
      assert dtor == (" virtual ~" + name + "()  ") + ("{" + "}") + "\n";
      DepthAppend("{", "}");
      DepthAround(" virtual ~" + name + "()  ", "{" + "}", "\n");
      DepthAppend(classHead, dtor);
      assert ClassDefinitionBegin(c, baseClass, derivedClass) == classHead + dtor;
    } else {
      assert ClassDefinitionBegin(c, baseClass, derivedClass) == classHead;
    }
  }

  /** The class opener leaves exactly one brace open, the closer closes it,
      so a class body between them keeps its own depth: a balanced body
      gives a balanced class, for brace-free class names. */
  lemma ClassBlockBalanced(c: Generator, baseClass: string, derivedClass: Option<string>, body: string)
    requires '{' !in baseClass && '}' !in baseClass
    requires derivedClass.Some? ==> '{' !in derivedClass.value && '}' !in derivedClass.value
    ensures Depth(ClassDefinitionBegin(c, baseClass, derivedClass)) == 1
    ensures Depth(ClassDefinitionEnd()) == -1
    ensures Depth(ClassDefinitionBegin(c, baseClass, derivedClass) + body + ClassDefinitionEnd()) == Depth(body)
  {
    var begin := ClassDefinitionBegin(c, baseClass, derivedClass);
    OpenerDepth(c, baseClass, derivedClass);
    BraceCounts();
    assert ClassDefinitionEnd() == "\n" + "}" + ";\n";
    DepthAround("\n", "}", ";\n");
    DepthAppend(begin, body);
    DepthAppend(begin + body, ClassDefinitionEnd());
  }

  /** The test-framework includes of the mock form. */
  const GMockInclude := IncludeDirective("gmock/gmock.hpp")
  const GTestInclude := IncludeDirective("gtest/gtest.hpp")
  const ExternOpen := "extern \"C\" {"

  /** What the mock form puts before the directives: the gmock and gtest
      includes, then the opening of the `extern "C"` block. */
  const Frameworks := "\n" + GMockInclude + "\n" + GTestInclude + "\n"
  const BeginEncap := "\n" + ExternOpen + "\n"

  /** Whether the include block is the wrapped mock form. */
  predicate Wrapped(c: Generator, bypassExtern: bool)
  {
    c.mockAttr && !bypassExtern
  }

  /** `add_includes`: the directives in input order, joined by newlines;
      in mock mode without `bypassExtern` preceded by the gmock and gtest
      includes and wrapped in `extern "C" { ... }`, otherwise followed by a
      single newline. */
  function Includes(c: Generator, includes: seq<string>, bypassExtern: bool := false): (r: string)
    ensures Wrapped(c, bypassExtern) ==> r == Frameworks + BeginEncap + Join(IncludeDirectives(includes), "\n") + "\n}\n"
    ensures !Wrapped(c, bypassExtern) ==> r == Join(IncludeDirectives(includes), "\n") + "\n"
  {
    var wrap := c.mockAttr && !bypassExtern;
    var includeStr := if wrap then Frameworks else "";
    var beginEncap := if wrap then BeginEncap else "";
    var endEncap := if wrap then "\n}\n" else "\n";
    includeStr + beginEncap + Join(IncludeDirectives(includes), "\n") + endEncap
  }

  /** The framework lines and the opening of the wrapper, one per line. */
  function WrapHead(): seq<string>
  {
    ["", GMockInclude, GTestInclude, "", ExternOpen]
  }

  lemma WrapHeadJoin()
    ensures Join(WrapHead(), "\n") + "\n" == Frameworks + BeginEncap
  {
    HeadJoin(GMockInclude, GTestInclude, ExternOpen);
  }

  lemma HeadJoin(a: string, b: string, e: string)
    ensures Join(["", a, b, "", e], "\n") + "\n" == "\n" + a + "\n" + b + "\n" + ("\n" + e + "\n")
  {
    var h := ["", a, b, "", e];
    JoinCons(h[3], [h[4]], "\n");
    assert h[3..] == [h[3]] + [h[4]];
    JoinCons(h[2], h[3..], "\n");
    assert h[2..] == [h[2]] + h[3..];
    JoinCons(h[1], h[2..], "\n");
    assert h[1..] == [h[1]] + h[2..];
    JoinCons(h[0], h[1..], "\n");
    assert h == [h[0]] + h[1..];
  }

  lemma WrapHeadOneLine()
    ensures forall i :: 0 <= i < |WrapHead()| ==> '\n' !in WrapHead()[i]
  {
    assert '\n' !in "gmock/gmock.hpp" && '\n' !in "gtest/gtest.hpp";
    assert '\n' !in "#include <" && '\n' !in ">";
    assert '\n' !in ExternOpen;
  }

  lemma ClosingBrace()
    ensures Join(["}", ""], "\n") == "}\n"
    ensures "\n}\n" == "\n" + "}\n"
  {
    assert ["}", ""][1..] == [""];
  }

  /** Lines `head`, then `ds`, then a closing brace line and the empty
      rest, joined: the joined head with its newline, the joined `ds`, the
      brace on a line of its own. */
  lemma BracedJoin(head: seq<string>, ds: seq<string>, opening: string)
    requires |head| > 0 && |ds| > 0
    requires Join(head, "\n") + "\n" == opening
    ensures Join(head + ds + ["}", ""], "\n") == opening + Join(ds, "\n") + "\n}\n"
  {
    var tail := ["}", ""];
    ClosingBrace();
    JoinAppend(ds, tail, "\n");
    JoinAppend(head, ds + tail, "\n");
    assert head + ds + tail == head + (ds + tail);
  }

  /** The wrapped block is the wrapper head, the directives and the closing
      brace, joined as lines. */
  lemma WrappedJoin(ds: seq<string>)
    requires |ds| > 0
    ensures Join(WrapHead() + ds + ["}", ""], "\n") == Frameworks + BeginEncap + Join(ds, "\n") + "\n}\n"
  {
    WrapHeadJoin();
    BracedJoin(WrapHead(), ds, Frameworks + BeginEncap);
  }

  /** The plain block is the directives, then the empty rest after the
      final newline. */
  lemma PlainJoin(ds: seq<string>)
    requires |ds| > 0
    ensures Join(ds + [""], "\n") == Join(ds, "\n") + "\n"
  {
    JoinAppend(ds, [""], "\n");
  }

  /** Read back line by line (a non-empty list of newline-free headers):
      in the wrapped form the gmock and gtest includes come first, then the
      `extern "C" {` opener, one directive per header in input order, and
      the closing brace; otherwise exactly the directives and the final
      newline. */
  lemma IncludesLines(c: Generator, includes: seq<string>, bypassExtern: bool)
    requires |includes| > 0
    requires forall i :: 0 <= i < |includes| ==> OneLine(includes[i])
    ensures Split(Includes(c, includes, bypassExtern), '\n')
         == (if Wrapped(c, bypassExtern) then WrapHead() else [])
            + IncludeDirectives(includes)
            + (if Wrapped(c, bypassExtern) then ["}", ""] else [""])
  {
    var ds := IncludeDirectives(includes);
    assert forall i :: 0 <= i < |ds| ==> '\n' !in ds[i] by {
      assert '\n' !in "#include <" && '\n' !in ">";
    }
    if Wrapped(c, bypassExtern) {
      var lines := WrapHead() + ds + ["}", ""];
      WrappedJoin(ds);
      WrapHeadOneLine();
      assert forall i :: 0 <= i < |lines| ==> '\n' !in lines[i];
      SplitJoin(lines, '\n');
    } else {
      var lines := ds + [""];
      PlainJoin(ds);
      assert forall i :: 0 <= i < |lines| ==> '\n' !in lines[i];
      SplitJoin(lines, '\n');
      assert [] + ds + [""] == lines;
    }
  }

  /** The name of the global mock instance a forwarding body calls through. */
  function PointerName(className: string): string
  {
    className + "Ptr"
  }

  /** `add_extern_object_definition`: declares `<C>Ptr` as a pointer to a
      `C`, on one line; the class name occurs twice and nothing else is
      added to the fixed text. */
  function ExternObjectDefinition(className: string): (r: string)
    ensures StartsWith(r, "extern " + className + " *")
    ensures EndsWith(r, PointerName(className) + "; \n")
    ensures |r| == 2 * |className| + 15
    ensures r == "extern " + className + " *" + PointerName(className) + "; \n"
  {
    var decl := "extern " + className + " *";
    var name := className + "Ptr" + "; \n";
    assert (decl + name)[..|decl|] == decl;
    assert (decl + name)[|decl|..] == name;
    decl + name
  }

  /** `ret name(dtype value, ...)`: the signature a forwarding function
      shares with the plain override declaration. */
  function Signature(retVal: string, funcName: string, args: seq<Arg>): string
  {
    retVal + " " + funcName + "(" + ParamList(args) + ")"
  }

  /** `<C>Ptr->name(value, ...)`: the call a forwarding body makes. */
  function ForwardCall(className: string, funcName: string, args: seq<Arg>): string
  {
    PointerName(className) + "->" + funcName + "(" + Join(Values(args), ", ") + ")"
  }

  /** The forwarding function `add_function_implementation` writes: the
      signature, then a body that returns the forwarded call. */
  function Implementation(retVal: string, funcName: string, args: seq<Arg>, className: string): string
  {
    "\n" + Signature(retVal, funcName, args) + " {\n" + "return " + ForwardCall(className, funcName, args) + "; \n}\n\n"
  }

  lemma ImplementationPieces()
    ensures ") {\n" == ")" + " {\n"
    ensures "); \n}\n\n" == ")" + "; \n}\n\n"
    ensures "Ptr->" == "Ptr" + "->"
  {
  }

  /** `add_function_implementation`, one `+=` at a time as the generator does it. */
  method FunctionImplementation(retVal: string, funcName: string, arguments: seq<Arg>, className: string)
    returns (text: string)
    ensures text == Implementation(retVal, funcName, arguments, className)
  {
    ghost var values := Values(arguments);
    var n := |arguments|;
    var funcStr := "\n" + retVal + " " + funcName + "(";
    funcStr := AppendParams(funcStr, arguments);
    funcStr := funcStr + ") {\n";

    var funcBody := "return " + className + "Ptr->" + funcName + "(";
    ghost var call := funcBody;
    JoinPrefixEnds(values, ", ");
    var i := 0;
    while i < n
      invariant 0 <= i <= n
      invariant funcBody == call + JoinPrefix(values, ", ", i)
    {
      JoinPrefixStep(values, ", ", i);
      if i == n - 1 {
        funcBody := funcBody + arguments[i].value;
      } else {
        funcBody := funcBody + (arguments[i].value + ", ");
      }
      i := i + 1;
    }
    funcBody := funcBody + "); \n}\n\n";
    text := funcStr + funcBody;
    ImplementationAssembled(retVal, funcName, arguments, className, funcStr, funcBody);
  }

  lemma ImplementationAssembled(retVal: string, funcName: string, args: seq<Arg>, className: string,
                                funcStr: string, funcBody: string)
    requires funcStr == "\n" + retVal + " " + funcName + "(" + ParamList(args) + ") {\n"
    requires funcBody == "return " + className + "Ptr->" + funcName + "(" + Join(Values(args), ", ") + "); \n}\n\n"
    ensures funcStr + funcBody == Implementation(retVal, funcName, args, className)
  {
    ImplementationPieces();
    assert funcStr == "\n" + Signature(retVal, funcName, args) + " {\n";
    assert funcBody == "return " + ForwardCall(className, funcName, args) + "; \n}\n\n";
  }

  /** The forwarding function opens with the very signature a plain
      (non-mock) generator gives the override declaration of the same
      function (`sig override;` becomes `sig {`). */
  lemma ImplementationSignature(c: Generator, retVal: string, funcName: string, args: seq<Arg>, className: string)
    requires !c.mockAttr
    ensures var sig := Signature(retVal, funcName, args);
      DeclarationLine(c, retVal, funcName, args, true) == sig + " override;" &&
      StartsWith(Implementation(retVal, funcName, args, className), "\n" + sig + " {\n")
  {
    var sig := Signature(retVal, funcName, args);
    OverrideDeclaration(c, retVal, funcName, args);
    assert ") override;" == ")" + " override;";
    assert DeclarationLine(c, retVal, funcName, args, true) == sig + " override;";
    var head := "\n" + sig + " {\n";
    var impl := Implementation(retVal, funcName, args, className);
    assert impl == head + ("return " + ForwardCall(className, funcName, args) + "; \n}\n\n");
    assert impl[..|head|] == head;
  }

  /** The forwarding body returns a call through the very pointer that
      ExternObjectDefinition declares, passing the parameter names alone,
      in order. */
  lemma ImplementationForwards(retVal: string, funcName: string, args: seq<Arg>, className: string)
    ensures EndsWith(ExternObjectDefinition(className), PointerName(className) + "; \n")
    ensures StartsWith(Implementation(retVal, funcName, args, className),
                       "\n" + Signature(retVal, funcName, args) + " {\n" + "return " + ForwardCall(className, funcName, args))
    ensures StartsWith(ForwardCall(className, funcName, args), PointerName(className) + "->" + funcName + "(")
    ensures EndsWith(ForwardCall(className, funcName, args), Join(Values(args), ", ") + ")")
  {
    var head := "\n" + Signature(retVal, funcName, args) + " {\n" + "return " + ForwardCall(className, funcName, args);
    var impl := Implementation(retVal, funcName, args, className);
    assert impl == head + "; \n}\n\n";
    assert impl[..|head|] == head;
    var open := PointerName(className) + "->" + funcName + "(";
    var rest := Join(Values(args), ", ") + ")";
    assert ForwardCall(className, funcName, args) == open + rest;
    assert (open + rest)[..|open|] == open;
    assert (open + rest)[|open|..] == rest;
  }
}
