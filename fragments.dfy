/** Text fragments that the C and the C++ generators both emit in the same
    shape: the `#include <...>` directive list and the doxygen block that
    precedes a documented declaration. */
module Fragments {
  import opened Strings

  /** One angle-bracket include line, without its newline. */
  function IncludeDirective(header: string): string
  {
    "#include <" + header + ">"
  }

  /** The list comprehension `["#include <" + h + ">" for h in includes]`. */
  function IncludeDirectives(includes: seq<string>): (ds: seq<string>)
    ensures |ds| == |includes|
    ensures forall i :: 0 <= i < |includes| ==> ds[i] == IncludeDirective(includes[i])
  {
    seq(|includes|, i requires 0 <= i < |includes| => IncludeDirective(includes[i]))
  }

  /** One ` * @param <text>` line of a doxygen block, newline included. */
  function ParamLine(text: string): string
  {
    " * @param " + text + "\n"
  }

  /** The `@param` lines the generators append one argument at a time. */
  function ParamLines(params: seq<string>): string
    decreases |params|
  {
    if |params| == 0 then "" else ParamLine(params[0]) + ParamLines(params[1..])
  }

  /** Appending one more argument appends its `@param` line. */
  lemma {:induction false} ParamLinesSnoc(params: seq<string>, p: string)
    ensures ParamLines(params + [p]) == ParamLines(params) + ParamLine(p)
    decreases |params|
  {
    if |params| == 0 {
      assert ([p])[1..] == [];
    } else {
      assert (params + [p])[0] == params[0];
      assert (params + [p])[1..] == params[1..] + [p];
      ParamLinesSnoc(params[1..], p);
    }
  }

  /** The `@param` lines as a list of lines without their newlines. */
  function ParamItems(params: seq<string>): (items: seq<string>)
    ensures |items| == |params|
    ensures forall i :: 0 <= i < |params| ==> items[i] == " * @param " + params[i]
    decreases |params|
  {
    if |params| == 0 then [] else [" * @param " + params[0]] + ParamItems(params[1..])
  }

  /** The appended `@param` lines, read as newline-terminated lines, are the
      items in argument order. */
  lemma {:induction false} ParamLinesJoin(params: seq<string>)
    requires |params| > 0
    ensures ParamLines(params) == Join(ParamItems(params), "\n") + "\n"
    decreases |params|
  {
    if |params| > 1 {
      ParamLinesJoin(params[1..]);
      var items := ParamItems(params);
      assert items[1..] == ParamItems(params[1..]);
    }
  }

  /** The doxygen block `add_function_definition` writes when `doxygen_ready`
      is set: the brief line, one `@param` line per parameter text, the
      return line and the closing star-slash line (with no newline after it). */
  function DocBlock(funcName: string, retVal: string, params: seq<string>): string
  {
    DocOpening(funcName) + "\n" + ParamLines(params) + DocClosing(retVal)
  }

  /** The block up to the `@brief` line's newline, and from the `@return`
      line on. */
  function DocOpening(funcName: string): string
  {
    "\n\n/**\n * @brief " + funcName
  }

  function DocClosing(retVal: string): string
  {
    " * @return " + retVal + "\n" + " */"
  }

  /** The doxygen block line by line. */
  function DocLines(funcName: string, retVal: string, params: seq<string>): seq<string>
  {
    DocHead(funcName) + ParamItems(params) + DocTail(retVal)
  }

  function DocHead(funcName: string): seq<string>
  {
    ["", "", "/**", " * @brief " + funcName]
  }

  function DocTail(retVal: string): seq<string>
  {
    [" * @return " + retVal, " */"]
  }

  lemma DocHeadJoin(funcName: string)
    ensures Join(DocHead(funcName), "\n") == DocOpening(funcName)
  {
    var brief := " * @brief " + funcName;
    JoinCons("/**", [brief], "\n");
    JoinCons("", ["/**", brief], "\n");
    JoinCons("", ["", "/**", brief], "\n");
    assert DocHead(funcName) == [""] + ["", "/**", brief];
  }

  lemma DocTailJoin(retVal: string)
    ensures Join(DocTail(retVal), "\n") == DocClosing(retVal)
  {
    JoinCons(" * @return " + retVal, [" */"], "\n");
  }

  /** The doxygen block consists of exactly the lines of DocLines: two blank
      lines, the opener, `@brief <name>`, one `@param` per parameter in
      order, `@return <ret>` and the closer. */
  lemma DocBlockLines(funcName: string, retVal: string, params: seq<string>)
    ensures DocBlock(funcName, retVal, params) == Join(DocLines(funcName, retVal, params), "\n")
  {
    var head, tail := DocHead(funcName), DocTail(retVal);
    var h, t := Join(head, "\n"), Join(tail, "\n");
    assert h == DocOpening(funcName) by { DocHeadJoin(funcName); }
    assert t == DocClosing(retVal) by { DocTailJoin(retVal); }
    if |params| == 0 {
      assert Join(DocLines(funcName, retVal, params), "\n") == h + "\n" + t by {
        assert DocLines(funcName, retVal, params) == head + tail;
        JoinAppend(head, tail, "\n");
      }
    } else {
      var items := ParamItems(params);
      var m := Join(items, "\n");
      assert Join(DocLines(funcName, retVal, params), "\n") == h + "\n" + m + "\n" + t by {
        assert DocLines(funcName, retVal, params) == (head + items) + tail;
        JoinAppend(head, items, "\n");
        JoinAppend(head + items, tail, "\n");
      }
      assert ParamLines(params) == m + "\n" by { ParamLinesJoin(params); }
    }
  }

  /** A declaration line preceded, when `doxygenReady`, by the doxygen
      block: `[block] + "\n" + line + "\n"`. */
  function Documented(doxygenReady: bool, funcName: string, retVal: string, params: seq<string>, line: string): string
  {
    (if doxygenReady then DocBlock(funcName, retVal, params) else "") + "\n" + line + "\n"
  }

  /** The lines of a documented declaration: the doxygen lines only when
      `doxygenReady` (a single blank line otherwise), then the declaration
      line, then the empty rest after its newline. */
  function DocumentedLines(doxygenReady: bool, funcName: string, retVal: string, params: seq<string>, line: string): seq<string>
  {
    (if doxygenReady then DocLines(funcName, retVal, params) else [""]) + [line, ""]
  }

  lemma DocumentedAsLines(doxygenReady: bool, funcName: string, retVal: string, params: seq<string>, line: string)
    ensures Documented(doxygenReady, funcName, retVal, params, line)
         == Join(DocumentedLines(doxygenReady, funcName, retVal, params, line), "\n")
  {
    var tail := [line, ""];
    assert Join(tail, "\n") == line + "\n" by {
      assert tail[1..] == [""];
    }
    if doxygenReady {
      DocBlockLines(funcName, retVal, params);
      JoinAppend(DocLines(funcName, retVal, params), tail, "\n");
    } else {
      assert ([""] + tail)[1..] == tail;
    }
  }

  predicate OneLine(s: string) { '\n' !in s }

  /** Read back line by line, a documented declaration whose name, return
      type, parameter texts and line hold no newline yields exactly its
      DocumentedLines. */
  lemma DocumentedSplit(doxygenReady: bool, funcName: string, retVal: string, params: seq<string>, line: string)
    requires OneLine(funcName) && OneLine(retVal) && OneLine(line)
    requires forall i :: 0 <= i < |params| ==> OneLine(params[i])
    ensures Split(Documented(doxygenReady, funcName, retVal, params, line), '\n')
         == DocumentedLines(doxygenReady, funcName, retVal, params, line)
  {
    DocumentedAsLines(doxygenReady, funcName, retVal, params, line);
    var items := ParamItems(params);
    assert forall i :: 0 <= i < |items| ==> OneLine(items[i]);
    var head: seq<string> := if doxygenReady then DocLines(funcName, retVal, params) else [""];
    assert forall i :: 0 <= i < |head| ==> OneLine(head[i]) by {
      if doxygenReady {
        var pre := DocHead(funcName);
        var post := DocTail(retVal);
        assert head == pre + items + post;
        assert forall i :: 0 <= i < |pre| ==> OneLine(pre[i]);
        assert forall i :: 0 <= i < |post| ==> OneLine(post[i]);
      }
    }
    var lines := head + [line, ""];
    assert lines == DocumentedLines(doxygenReady, funcName, retVal, params, line);
    SplitJoin(lines, '\n');
  }
}
