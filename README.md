# CodeGen emitter backends in Dafny

This project models the text emitters of CodeGen, a generator that writes
C headers and C++ gMock interface, mock-header and mock-source boilerplate.
It covers three Python classes:

- `LangGen` is the shared base. It holds the author, the language name and
  the header extension. It writes the copyright banner, the file doxygen
  block and the `#ifndef`/`#define` … `#endif` header guard. Four dialect
  operations fail with `NotImplementedError` unless a dialect overrides them.
- `CGen` is the C dialect. It writes flat prototypes from opaque argument
  texts, with an optional doxygen block, and `#include <…>` lists. It does
  not override the class operations, so those fail with the base error.
- `CppGen` is the C++ dialect, switched by the `mock_attr` flag.
  - It writes pure-virtual base declarations, and derived declarations: a
    `MOCK_METHODn` registration in mock mode, an `override` declaration
    otherwise.
  - It writes class openers and closers.
  - Its include block can add the gmock/gtest includes and wrap the list
    in `extern "C" { … }`.
  - It writes the `extern X *XPtr;` declaration and call-forwarding
    function bodies.

Every generator is a Dafny datatype, because nothing changes after the
constructor. `CGen.Base` and `CppGen.Base` give the base state each
constructor sets up. Every emitter is a function, except for the methods
that grow their result with `+=` inside loops. Those methods
(`add_function_definition` of both dialects and `add_function_implementation`)
are Dafny methods with `while` loops. Each one is proved equal to a
specification function, and the properties are proved as lemmas about that
function.

Python's `str.join`, `str.split` on one character, ASCII `str.upper` and
the decimal rendering of a count are modelled in module `Strings`. Many
properties are stated by reading an output back line by line: `Split` of
the text on `'\n'` gives exactly the listed lines, through the round trip
`Split(Join(xs, "\n"), '\n') == xs`.

Module `Backends` puts the three classes into one `Backend` value and
dispatches a call the way Python's method lookup does: to the dialect's
own method if it has one, else to the base method.

The model follows the code in these details, where a reader of the
generated samples might expect otherwise:

- Doxygen `@param` lines of the C++ dialect hold `dtype value`, not the
  type alone.
- The mock-mode destructor stub is `virtual ~X()  {}`, with two spaces.
- A plain (non-mock) derived declaration is `ret name(params) override;`.
  No macro is involved.
- The guard suffix is the upper-cased text between the first and the
  second dot of the extension (`split('.')[1]`). An extension without a
  dot raises `IndexError`, and the model returns that error.

## Model

| member | source | states |
|---|---|---|
| Strings.Split | codegen/langgen.py:21 | `split` gives at least one piece, more than one exactly when the separator occurs, and no piece holds the separator |
| Strings.JoinSplit | codegen/langgen.py:21 | joining the pieces of a split with the separator gives back the original text |
| Strings.SplitJoin | codegen/cgen.py:37 | lines without a newline, joined by `"\n"` and split again on `'\n'`, are the same lines |
| Strings.JoinLength | codegen/cgen.py:37 | the joined text is as long as the pieces plus exactly one separator fewer than there are pieces |
| Strings.JoinPieceAt | codegen/cppgen.py:88 | every piece stands verbatim, in list order, at its offset in the joined text |
| Strings.JoinSeparatorAt | codegen/cppgen.py:88 | between neighbouring pieces stands exactly one separator |
| Strings.JoinEndsWithLast | codegen/cgen.py:37 | the last piece ends where the joined text ends, so no separator trails |
| Fragments.IncludeDirectives | codegen/cgen.py:34-36 | one `#include <h>` directive per header, same count, in input order |
| Strings.Upper | codegen/langgen.py:21 | length kept, each character upper-cased pointwise, no lower-case letter left |
| Strings.NatToStringValue | codegen/cppgen.py:29-30 | the printed argument count, read back as a decimal number, is the count |
| LangGen.Copyright | codegen/langgen.py:14-15 | the banner is the fixed prefix, then the author, then the fixed suffix, at those positions |
| LangGen.CopyrightDeterminedByAuthor | codegen/langgen.py:14-15 | two generators print the same banner if and only if they have the same author |
| LangGen.FileDoxygenGuard | codegen/langgen.py:17-18 | the file block is the newline join of: blank, opener, `@file f+ext`, the brief line naming `f`, `@author a`, closer, blank |
| LangGen.FileDoxygenSplit | codegen/langgen.py:17-18 | read back line by line, the file block is exactly those lines, so file, module and author each sit on their own line |
| LangGen.GuardSymbol | codegen/langgen.py:20-24 | the symbol exists exactly when the extension holds a dot, else `IndexError`; it is `upper(f)`, `_`, then the upper-cased second dot-separated piece of the extension, which holds no dot and no lower-case letter |
| LangGen.GuardSuffix | codegen/langgen.py:20-24 | for an extension `p.x` or `p.x.rest` the symbol is `upper(f) + "_" + upper(x)`, whatever stands before the first dot and after the second |
| LangGen.HeaderGuardBegin | codegen/langgen.py:20-21 | succeeds exactly when the extension holds a dot; otherwise fails with the index error |
| LangGen.HeaderGuardEnd | codegen/langgen.py:23-24 | succeeds exactly when the extension holds a dot; otherwise fails with the index error |
| LangGen.GuardsMatch | codegen/langgen.py:20-24 | begin and end succeed together, and the `#ifndef`, `#define` and `#endif` lines carry one and the same symbol |
| LangGen.GuardLines | codegen/langgen.py:21-24 | read back line by line, begin is `#ifndef SYM`, `#define SYM`; end is a blank line, then `#endif /*! SYM */` |
| LangGen.FunctionDefinition | codegen/langgen.py:26-28 | always fails with `NotImplementedError("<language> language specific feature not supported")` |
| LangGen.Includes | codegen/langgen.py:30-32 | always fails with the same message |
| LangGen.ClassDefinitionBegin | codegen/langgen.py:34-36 | always fails with the same message |
| LangGen.ClassDefinitionEnd | codegen/langgen.py:38-40 | always fails with the same message |
| CGen.Base | codegen/cgen.py:8-9 | the author is kept, the language is "C" and the extension ".h" |
| CGen.GuardSuffixIsH | codegen/cgen.py:8-9 | a C generator's guard symbol always exists and is `upper(f) + "_H"` |
| CGen.AppendParamDocs | codegen/cgen.py:15-16 | the doxygen loop appends one `@param` line per argument, in order |
| CGen.AppendArguments | codegen/cgen.py:22-26 | the argument loop appends the arguments joined by ", ", with no separator after the last |
| CGen.FunctionDefinition | codegen/cgen.py:11-29 | the `+=` sequence yields the doxygen block when `doxygen_ready`, then the prototype on its own line |
| CGen.DeclarationLines | codegen/cgen.py:13-28 | read back line by line: the doxygen lines (`@brief`, one `@param` per argument in order, `@return`, closer) exactly when `doxygen_ready`, else one blank line; then the prototype |
| CGen.PrototypeArguments | codegen/cgen.py:21-28 | zero arguments give `ret name();`; each argument stands verbatim at its offset; the last is followed directly by `);` |
| CGen.Includes | codegen/cgen.py:31-38 | the result is empty exactly when the header list is empty |
| CGen.IncludesLines | codegen/cgen.py:31-38 | read back line by line, exactly one `#include <h>` per header, in input order, with no trailing newline |
| CGen.ClassDefinitionBegin | codegen/langgen.py:34-36 | on a C generator it fails with "C language specific feature not supported" |
| CGen.ClassDefinitionEnd | codegen/langgen.py:38-40 | on a C generator it fails with "C language specific feature not supported" |
| CppGen.Base | codegen/cppgen.py:8-10 | the author and extension are kept and the language is "C++" |
| CppGen.DefaultExtHasNoGuard | codegen/cppgen.py:8-10 | with the default empty extension both guard operations fail with the index error |
| CppGen.AppendParamDocs | codegen/cppgen.py:16-18 | the doxygen loop appends one `@param dtype value` line per argument, in order |
| CppGen.AppendParams | codegen/cppgen.py:35-39 | the argument loop appends `dtype value` pieces joined by ", ", with no separator after the last |
| CppGen.FunctionDefinition | codegen/cppgen.py:12-52 | the `+=` sequence yields the doxygen block when `doxygen_ready`, then the declaration line chosen by `mock_attr` and `derived_class` |
| CppGen.BaseDeclaration | codegen/cppgen.py:23-50 | a base declaration is ` virtual ret name(params) = 0;`, and it does not depend on `mock_attr` |
| CppGen.OverrideDeclaration | codegen/cppgen.py:47-48 | outside mock mode a derived declaration is `ret name(params) override;` |
| CppGen.MockDeclaration | codegen/cppgen.py:28-43 | in mock mode a derived declaration is `MOCK_METHODn(name, ret(params));`, where `n` is a decimal number equal to the parameter count |
| CppGen.DeclarationLines | codegen/cppgen.py:14-21 | read back line by line: the doxygen lines over `dtype value` exactly when `doxygen_ready`, else one blank line; then the declaration line |
| CppGen.ClassDefinitionBegin | codegen/cppgen.py:54-68 | the opener is `\nclass X` (plus ` : public B` for a derived class) and ` {\n public: \n`, followed in mock mode by the destructor stub naming X and otherwise by nothing |
| CppGen.ClassDefinitionEnd | codegen/cppgen.py:70-71 | read back line by line, the closer is the single line `};` between two newlines |
| CppGen.ClassBlockBalanced | codegen/cppgen.py:54-71 | the opener leaves one brace open and the closer closes it, so the class has the brace depth of its body |
| CppGen.Includes | codegen/cppgen.py:73-90 | in mock mode without `bypass_extern`: framework includes, `extern "C" {`, the directives, `}`; otherwise the directives and one newline |
| CppGen.IncludesLines | codegen/cppgen.py:73-90 | read back line by line: the gmock and gtest lines and the opener, then one directive per header in input order, then the brace, in the wrapped form; otherwise the directives only |
| CppGen.ExternObjectDefinition | codegen/cppgen.py:92-93 | the declaration is exactly `extern C *CPtr; \n`: the class name twice, 15 fixed characters besides |
| CppGen.FunctionImplementation | codegen/cppgen.py:95-114 | the two `+=` loops yield the signature with `dtype value` pairs and a body that returns the forwarded call |
| CppGen.ImplementationSignature | codegen/cppgen.py:95-103 | the forwarding function opens with the signature a non-mock generator gives the override declaration of the same function |
| CppGen.ImplementationForwards | codegen/cppgen.py:92-114 | the body returns a call through the pointer the extern definition declares, `CPtr->name(`, with the parameter names alone, in order |
| Backends.Includes | codegen/langgen.py:30-32 | include lists succeed exactly on the C and C++ backends; the generic base fails naming its language |
| Backends.ClassDefinitionBegin | codegen/langgen.py:34-36 | class openers succeed exactly on the C++ backend; C fails naming "C" |
| Backends.ClassDefinitionEnd | codegen/langgen.py:38-40 | class closers succeed exactly on the C++ backend; C fails naming "C" |
| Backends.IncludesAgree | codegen/cppgen.py:73-90 | both dialects render the same directive list in the same order; C++ wraps it in mock mode and adds a newline otherwise |
| Backends.CopyrightAcrossDialects | codegen/langgen.py:14-15 | a C and a C++ backend with the same author print the same banner |
| Backends.GuardAvailability | codegen/langgen.py:20-21 | a C backend always has a guard; a C++ backend has one exactly when its extension holds a dot |

## Left out

- codegen/codegen.py is not part of this model. It holds the command-line
  parsing, the existence check and printing, and a stub schema parser that
  returns a fixed dictionary. All of that is I/O and process plumbing.
- The orchestration that assembles whole artifacts is not modelled. It
  covers PascalCase module names, the `Mock*.hpp` and `Mock*.cpp` file
  names, fragment order, `gmock_ready` gating and file writing. None of it
  is in the modelled files.
- `add_function_definition` has no single dispatch in `Backends`. The C
  and C++ versions take differently shaped arguments: opaque strings
  versus `dtype`/`value` records, and C++ adds `derived_class`.
- Strings.Upper: only ASCII letters are upper-cased. Python's Unicode
  case mapping is not modelled.
- `str.format` is modelled as plain concatenation of its pieces.
- The `is True` and `is False` tests of keyword arguments are modelled on
  booleans. With a non-boolean `derived_class` the Python fails both
  identity tests: it writes no `virtual`, the plain `ret name(` opening and
  the `) = 0;` closing, so the line is `ret name(params) = 0;`. That case
  is not modelled. The `derived_class` of `add_class_definition_begin` is
  an option of a class name.
- Python keyword lookups that fail with `KeyError` for a missing key are
  not modelled. Every parameter is passed explicitly.
