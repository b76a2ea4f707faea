/**
 * The validation message of the shared utilities (`formatZodError`): a
 * context line, then one line per issue holding the issue's path, joined by
 * dots, and its message.
 */
module Validation {
  import opened Text

  /** A segment of an issue's path: a property name or an array index. */
  datatype PathSegment = Key(name: string) | Index(n: nat)

  /** An issue as the formatter reads it. */
  datatype Issue = Issue(path: seq<PathSegment>, message: string)

  /** A segment as `join` renders it. */
  function SegmentText(p: PathSegment): (r: string)
    ensures p.Index? ==> r != [] && forall k :: 0 <= k < |r| ==> IsDigit(r[k])
    ensures p.Key? ==> r == p.name
  {
    match p
    case Key(name) => name
    case Index(n) => NatToString(n)
  }

  /** `issue.path.join(".")`. */
  function PathText(path: seq<PathSegment>): string {
    Join(seq(|path|, k requires 0 <= k < |path| => SegmentText(path[k])), ".")
  }

  /** `  - <path>: <message>`. */
  function IssueLine(i: Issue): (line: string)
    ensures StartsWith(line, "  - ")
  {
    "  - " + PathText(i.path) + ": " + i.message
  }

  /** The issue lines, in the order of the issues. */
  function IssueLines(issues: seq<Issue>): (lines: seq<string>)
    ensures |lines| == |issues|
    ensures forall k :: 0 <= k < |issues| ==> lines[k] == IssueLine(issues[k])
  {
    seq(|issues|, k requires 0 <= k < |issues| => IssueLine(issues[k]))
  }

  /** `formatZodError`, with the default context `Validation`. */
  function FormatZodError(issues: seq<Issue>, context: string := "Validation"): (r: string)
    ensures StartsWith(r, context + ":\n")
  {
    context + ":\n" + Join(IssueLines(issues), "\n")
  }

  /** Without issues the message is the header alone. */
  lemma NoIssuesIsHeader(context: string)
    ensures FormatZodError([], context) == context + ":\n"
  {
  }

  /** The default header. */
  lemma DefaultHeader(issues: seq<Issue>)
    ensures StartsWith(FormatZodError(issues), "Validation:\n")
  {
  }

  /** No line break: a name is free of them. */
  predicate OneLine(s: string) {
    '\n' !in s
  }

  /** A path whose names hold no line break renders on one line. */
  lemma PathOnOneLine(path: seq<PathSegment>)
    requires forall k :: 0 <= k < |path| ==> path[k].Key? ==> OneLine(path[k].name)
    ensures OneLine(PathText(path))
  {
    var texts := seq(|path|, k requires 0 <= k < |path| => SegmentText(path[k]));
    forall k | 0 <= k < |texts| ensures '\n' !in texts[k] {
      if path[k].Index? {
        assert forall j :: 0 <= j < |texts[k]| ==> IsDigit(texts[k][j]);
      }
    }
    JoinAvoids(texts, ".", '\n');
  }

  /** An issue whose names and message hold no line break is one line. */
  predicate SingleLineIssue(i: Issue) {
    && OneLine(i.message)
    && forall k :: 0 <= k < |i.path| ==> i.path[k].Key? ==> OneLine(i.path[k].name)
  }

  /** Splitting the message at line breaks gives the header and then one
      line per issue, in order; without issues the header is followed by an
      empty line. */
  lemma FormatLines(issues: seq<Issue>, context: string)
    requires OneLine(context)
    requires forall k :: 0 <= k < |issues| ==> SingleLineIssue(issues[k])
    ensures var lines := SplitOn(FormatZodError(issues, context), '\n');
      && lines[0] == context + ":"
      && |lines| == 1 + (if issues == [] then 1 else |issues|)
      && forall k :: 0 <= k < |issues| ==> lines[k + 1] == IssueLine(issues[k])
  {
    var header := context + ":";
    var body := IssueLines(issues);
    forall k | 0 <= k < |body| ensures '\n' !in body[k] {
      PathOnOneLine(issues[k].path);
    }
    var parts := if issues == [] then [header, ""] else [header] + body;
    assert FormatZodError(issues, context) == Join(parts, "\n") by {
      if issues != [] {
        assert parts[1..] == body;
      }
    }
    SplitJoin(parts, '\n');
  }

  /** An array index renders as its decimal digits. */
  lemma ExamplePath()
    ensures PathText([Key("user"), Index(0), Key("email")]) == "user.0.email"
  {
    var path := [Key("user"), Index(0), Key("email")];
    assert SegmentText(Index(0)) == "0";
    var texts := ["user", "0", "email"];
    assert seq(|path|, k requires 0 <= k < |path| => SegmentText(path[k])) == texts;
    assert Join(texts[2..], ".") == "email";
    assert Join(texts[1..], ".") == "0" + "." + "email";
    assert Join(texts, ".") == "user" + "." + ("0" + "." + "email");
  }
}
