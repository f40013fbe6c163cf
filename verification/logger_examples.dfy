/**
  The call sites used as examples for the source summary, worked out in full:
  a qualified and an unqualified function in "/a/b/handler.go" at line 42.
 */
module LoggerExamples {
  import opened Logger
  import opened FilePath
  import opened Decimal

  /** The last element of "/a/b/handler.go" is "handler.go". */
  lemma BaseOfHandlerPath()
    ensures Base("/a/b/handler.go") == "handler.go"
  {
    assert "/a/b/handler.go" == "/a/b/" + "handler.go" + "";
    BaseOfSplit("/a/b/", "handler.go", "");
  }

  /** The label of "pkgname.FuncName" is "pkgname". */
  lemma LabelOfExampleFunction()
    ensures PackageLabel("pkgname.FuncName") == "pkgname"
  {
    assert "pkgname.FuncName" == "pkgname" + "." + "FuncName";
    LabelOfQualifiedName("pkgname", "FuncName");
  }

  /** The label of "FuncName", which has no dot, is "unknown". */
  lemma LabelOfUnqualifiedExample()
    ensures PackageLabel("FuncName") == UnknownPackage
  {
    assert '.' !in "FuncName";
  }

  /** The pieces of the example summaries, joined as `Sprintf` joins them. */
  lemma ExampleText()
    ensures "pkgname" + " " + "handler.go" + ":" + "42" == "pkgname handler.go:42"
    ensures UnknownPackage + " " + "handler.go" + ":" + "42" == "unknown handler.go:42"
  {
  }

  /** "pkgname.FuncName" in "/a/b/handler.go" at line 42 is summarised as
      "pkgname handler.go:42". */
  lemma QualifiedCallSiteExample()
    ensures FormatSource(Source("pkgname.FuncName", "/a/b/handler.go", 42)) == "pkgname handler.go:42"
  {
    LabelOfExampleFunction();
    BaseOfHandlerPath();
    FormatIntFortyTwo();
    ExampleText();
    SummaryOf(Source("pkgname.FuncName", "/a/b/handler.go", 42), "pkgname", "handler.go", "42");
  }

  /** "FuncName", without a dot, in "/a/b/handler.go" at line 42 is summarised
      as "unknown handler.go:42". */
  lemma UnqualifiedCallSiteExample()
    ensures FormatSource(Source("FuncName", "/a/b/handler.go", 42)) == "unknown handler.go:42"
  {
    LabelOfUnqualifiedExample();
    BaseOfHandlerPath();
    FormatIntFortyTwo();
    ExampleText();
    SummaryOf(Source("FuncName", "/a/b/handler.go", 42), UnknownPackage, "handler.go", "42");
  }
}
