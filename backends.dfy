/** The three generator classes as one backend value, so that a call on a
    backend goes to the dialect's own method when the dialect defines one
    and to the inherited base method otherwise, as Python's method lookup
    does. */
module Backends {
  import opened Wrappers
  import LangGen
  import CGen
  import CppGen

  datatype Backend =
    | Generic(g: LangGen.Generator)
    | C(c: CGen.Generator)
    | Cpp(cpp: CppGen.Generator)

  /** The base state every backend carries. */
  function Base(b: Backend): LangGen.Generator
  {
    match b
    case Generic(g) => g
    case C(c) => CGen.Base(c)
    case Cpp(cpp) => CppGen.Base(cpp)
  }

  /** `add_includes` on a backend (the C++ dialect with its default
      `bypass_extern`): it succeeds exactly when the dialect defines it, and
      the base version fails naming the language. */
  function Includes(b: Backend, includes: seq<string>): (r: Result<string, LangGen.Error>)
    ensures r.Ok? <==> !b.Generic?
    ensures r.Err? ==> r.error == LangGen.NotImplementedError(Base(b).language + LangGen.NotSupported)
  {
    match b
    case Generic(g) => LangGen.Includes(g, includes)
    case C(_) => Ok(CGen.Includes(includes))
    case Cpp(cpp) => Ok(CppGen.Includes(cpp, includes))
  }

  /** `add_class_definition_begin` on a backend: only the C++ dialect
      defines it; on the others the base version fails naming C or the
      generic language. */
  function ClassDefinitionBegin(b: Backend, baseClass: string, derivedClass: Option<string>): (r: Result<string, LangGen.Error>)
    ensures r.Ok? <==> b.Cpp?
    ensures r.Err? ==> r.error == LangGen.NotImplementedError(Base(b).language + LangGen.NotSupported)
    ensures b.C? ==> r == Err(LangGen.NotImplementedError("C" + LangGen.NotSupported))
  {
    match b
    case Generic(g) => LangGen.ClassDefinitionBegin(g)
    case C(c) => CGen.ClassDefinitionBegin(c)
    case Cpp(cpp) => Ok(CppGen.ClassDefinitionBegin(cpp, baseClass, derivedClass))
  }

  /** `add_class_definition_end` on a backend, dispatched the same way. */
  function ClassDefinitionEnd(b: Backend): (r: Result<string, LangGen.Error>)
    ensures r.Ok? <==> b.Cpp?
    ensures r.Err? ==> r.error == LangGen.NotImplementedError(Base(b).language + LangGen.NotSupported)
    ensures b.C? ==> r == Err(LangGen.NotImplementedError("C" + LangGen.NotSupported))
  {
    match b
    case Generic(g) => LangGen.ClassDefinitionEnd(g)
    case C(c) => CGen.ClassDefinitionEnd(c)
    case Cpp(_) => Ok(CppGen.ClassDefinitionEnd())
  }

  /** Both dialects emit the same directive list for the same headers, in
      the same order: the C++ block is the C block followed by a newline
      outside mock mode, and the C block between the framework includes
      with the `extern "C" {` opener and the closing brace in mock mode. */
  lemma IncludesAgree(author: string, cpp: CppGen.Generator, includes: seq<string>)
    ensures var cText := Includes(C(CGen.Generator(author)), includes).value;
      var cppText := Includes(Cpp(cpp), includes).value;
      if cpp.mockAttr
      then cppText == CppGen.Frameworks + CppGen.BeginEncap + cText + "\n}\n"
      else cppText == cText + "\n"
  {
  }

  /** The copyright banner of every backend shows its author and nothing
      else of it, so a C and a C++ backend of one author print the same
      banner whatever the C++ extension and mock flag. */
  lemma CopyrightAcrossDialects(author: string, ext: string, mockAttr: bool)
    ensures LangGen.Copyright(Base(C(CGen.Generator(author))))
         == LangGen.Copyright(Base(Cpp(CppGen.Generator(author, ext, mockAttr))))
  {
    LangGen.CopyrightDeterminedByAuthor(Base(C(CGen.Generator(author))), Base(Cpp(CppGen.Generator(author, ext, mockAttr))));
  }

  /** A C backend always has a header guard; a C++ backend has one exactly
      when its extension holds a dot, which its default empty extension
      does not. */
  lemma GuardAvailability(b: Backend, filename: string)
    requires !b.Generic?
    ensures LangGen.HeaderGuardBegin(Base(b), filename).Ok? <==> (b.C? || '.' in b.cpp.ext)
  {
    if b.C? {
      CGen.GuardSuffixIsH(b.c, filename);
    }
  }
}
