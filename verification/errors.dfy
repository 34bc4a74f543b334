/** `DNSDataUIObjectsError`: the package's error cases, each mapped to a
    numeric code in the "DATAUIOBJECTS" domain, a formatted message and an
    `NSError` whose user-info dictionary carries the case's details. */
module Errors {
  import opened Values

  const Domain := "DATAUIOBJECTS"

  /** Foundation's `NSLocalizedDescriptionKey`. */
  const DescriptionKey := "NSLocalizedDescription"

  /** `DNSCodeLocation`, as far as the errors use it: the user info it
      contributes and its failure reason. */
  datatype CodeLocation = CodeLocation(userInfo: map<string, Info>, failureReason: string)

  /** A lower-level `Error`, seen through its `localizedDescription`. */
  datatype LowerError = LowerError(localizedDescription: string)

  /** A value stored in an `NSError`'s user info. */
  datatype Info =
    | Text(text: string)
    | Texts(texts: seq<string>)
    | Wrapped(error: LowerError)
    | Opaque(tag: nat)

  datatype Error =
    | Unknown(loc: CodeLocation)
    | NotImplemented(loc: CodeLocation)
    | NotFound(field: string, value: string, loc: CodeLocation)
    | InvalidParameters(parameters: seq<string>, loc: CodeLocation)
    | Lower(error: LowerError, loc: CodeLocation)
    | TypeMismatch(expectedType: string, actualType: string, loc: CodeLocation)
    | UnexpectedNil(name: string, loc: CodeLocation)

  /** `DNSDataUIObjectsError.Code`. */
  datatype Code =
    | UnknownCode
    | NotImplementedCode
    | NotFoundCode
    | InvalidParametersCode
    | LowerErrorCode
    | TypeMismatchCode
    | UnexpectedNilCode
  {
    function RawValue(): nat {
      match this
      case UnknownCode => 1001
      case NotImplementedCode => 1002
      case NotFoundCode => 1003
      case InvalidParametersCode => 1004
      case LowerErrorCode => 1005
      case TypeMismatchCode => 2001
      case UnexpectedNilCode => 2002
    }
  }

  /** `Code(rawValue:)`: the code with the given raw value, if any. */
  function CodeFromRaw(n: int): (r: Option<Code>)
    ensures r.Some? ==> r.value.RawValue() == n
    ensures r.None? ==> forall c: Code :: c.RawValue() != n
    ensures r.Some? <==> n in {1001, 1002, 1003, 1004, 1005, 2001, 2002}
  {
    if n == 1001 then Some(UnknownCode)
    else if n == 1002 then Some(NotImplementedCode)
    else if n == 1003 then Some(NotFoundCode)
    else if n == 1004 then Some(InvalidParametersCode)
    else if n == 1005 then Some(LowerErrorCode)
    else if n == 2001 then Some(TypeMismatchCode)
    else if n == 2002 then Some(UnexpectedNilCode)
    else None
  }

  /** The seven raw values are pairwise distinct: each one names its code
      back. */
  lemma CodeRawRoundTrip(c: Code)
    ensures CodeFromRaw(c.RawValue()) == Some(c)
  {
  }

  /** The code of each case: the case of the same name. */
  function CodeOf(e: Error): (r: Code)
    ensures e.Unknown? <==> r == UnknownCode
    ensures e.NotImplemented? <==> r == NotImplementedCode
    ensures e.NotFound? <==> r == NotFoundCode
    ensures e.InvalidParameters? <==> r == InvalidParametersCode
    ensures e.Lower? <==> r == LowerErrorCode
    ensures e.TypeMismatch? <==> r == TypeMismatchCode
    ensures e.UnexpectedNil? <==> r == UnexpectedNilCode
  {
    match e
    case Unknown(_) => UnknownCode
    case NotImplemented(_) => NotImplementedCode
    case NotFound(_, _, _) => NotFoundCode
    case InvalidParameters(_, _) => InvalidParametersCode
    case Lower(_, _) => LowerErrorCode
    case TypeMismatch(_, _, _) => TypeMismatchCode
    case UnexpectedNil(_, _) => UnexpectedNilCode
  }

  // ---- decimal rendering of the code ----

  function Digit(d: nat): (c: char)
    requires d < 10
    ensures '0' <= c <= '9' && (c - '0') as int == d
  {
    ('0' as int + d) as char
  }

  predicate IsDigits(s: string) {
    forall i :: 0 <= i < |s| ==> '0' <= s[i] <= '9'
  }

  /** String interpolation of a non-negative integer: its decimal digits,
      most significant first, without leading zeros. */
  function NatToString(n: nat): (r: string)
    ensures |r| > 0 && IsDigits(r)
    ensures n >= 10 ==> r[0] != '0'
    decreases n
  {
    if n < 10 then [Digit(n)] else NatToString(n / 10) + [Digit(n % 10)]
  }

  /** The value of a string of decimal digits. */
  function DecimalValue(s: string): nat
    requires IsDigits(s)
  {
    if |s| == 0 then 0 else DecimalValue(s[..|s| - 1]) * 10 + (s[|s| - 1] - '0') as int
  }

  /** The rendering of an integer reads back as that integer. */
  lemma {:induction false} DecimalRoundTrip(n: nat)
    ensures DecimalValue(NatToString(n)) == n
    decreases n
  {
    var s := NatToString(n);
    if n >= 10 {
      DecimalRoundTrip(n / 10);
      assert s[..|s| - 1] == NatToString(n / 10);
    }
  }

  // ---- String(format:) ----

  /** `String(format:)` for a template whose only directives are `%@`: each
      `%@` is replaced, in order, by the next argument; the arguments are
      not themselves scanned. A directive with no argument left is dropped. */
  function Format(template: string, args: seq<string>): string
    decreases |template|
  {
    if |template| == 0 then ""
    else if |template| >= 2 && template[0] == '%' && template[1] == '@' then
      (if |args| > 0 then args[0] + Format(template[2..], args[1..]) else Format(template[2..], args))
    else [template[0]] + Format(template[1..], args)
  }

  /** `n` consecutive `%@` directives. */
  function Directives(n: nat): (r: string)
    ensures |r| == 2 * n
  {
    if n == 0 then "" else "%@" + Directives(n - 1)
  }

  function Concat(parts: seq<string>): string {
    if |parts| == 0 then "" else parts[0] + Concat(parts[1..])
  }

  predicate NoDirective(s: string) {
    forall i :: 0 <= i < |s| ==> s[i] != '%'
  }

  /** Text without a `%` is copied as it is. */
  lemma {:induction false} FormatText(text: string, rest: string, args: seq<string>)
    requires NoDirective(text)
    ensures Format(text + rest, args) == text + Format(rest, args)
    decreases |text|
  {
    var t := text + rest;
    if |text| > 0 {
      assert t[0] == text[0] && t[1..] == text[1..] + rest;
      FormatText(text[1..], rest, args);
    } else {
      assert t == rest;
    }
  }

  /** One directive per argument substitutes every argument, in order. */
  lemma {:induction false} FormatDirectives(args: seq<string>)
    ensures Format(Directives(|args|), args) == Concat(args)
    decreases |args|
  {
    if |args| > 0 {
      var t := Directives(|args|);
      assert t == "%@" + Directives(|args| - 1);
      assert t[2..] == Directives(|args[1..]|);
      FormatDirectives(args[1..]);
    }
  }

  lemma {:induction false} ConcatAppend(parts: seq<string>, last: string)
    ensures Concat(parts + [last]) == Concat(parts) + last
  {
    if |parts| > 0 {
      assert (parts + [last])[1..] == parts[1..] + [last];
      ConcatAppend(parts[1..], last);
    }
  }

  // ---- the parameters list ----

  /** `parameters.reduce("") { $0 + ($0.isEmpty ? "" : ", ") + $1 }`: a left
      fold, written as recursion on the prefix. */
  function ParametersText(ps: seq<string>): string {
    if |ps| == 0 then ""
    else
      var acc := ParametersText(ps[..|ps| - 1]);
      acc + (if |acc| == 0 then "" else ", ") + ps[|ps| - 1]
  }

  /** The names joined with ", " between consecutive ones. */
  function Join(ps: seq<string>): string {
    if |ps| == 0 then ""
    else if |ps| == 1 then ps[0]
    else Join(ps[..|ps| - 1]) + ", " + ps[|ps| - 1]
  }

  /** The list without its leading empty names. */
  function DropLeadingEmpty(ps: seq<string>): (r: seq<string>)
    ensures |r| <= |ps| && r == ps[|ps| - |r|..]
    ensures |r| > 0 ==> |r[0]| > 0
    ensures forall i :: 0 <= i < |ps| - |r| ==> |ps[i]| == 0
  {
    if |ps| > 0 && |ps[0]| == 0 then DropLeadingEmpty(ps[1..]) else ps
  }

  lemma {:induction false} DropLeadingEmptyAppend(ps: seq<string>, p: string)
    ensures DropLeadingEmpty(ps + [p]) ==
      if |DropLeadingEmpty(ps)| == 0 then (if |p| == 0 then [] else [p])
      else DropLeadingEmpty(ps) + [p]
  {
    if |ps| > 0 {
      assert (ps + [p])[1..] == ps[1..] + [p];
      if |ps[0]| == 0 {
        DropLeadingEmptyAppend(ps[1..], p);
      }
    }
  }

  lemma {:induction false} JoinNonEmpty(ps: seq<string>)
    requires |ps| > 0 && |ps[0]| > 0
    ensures |Join(ps)| > 0
  {
    if |ps| > 1 {
      JoinNonEmpty(ps[..|ps| - 1]);
    }
  }

  /** The fold separates consecutive names by ", ", except that leading
      empty names vanish without a separator (an empty accumulator adds
      none). */
  lemma {:induction false} ParametersTextIsJoin(ps: seq<string>)
    ensures ParametersText(ps) == Join(DropLeadingEmpty(ps))
    decreases |ps|
  {
    if |ps| > 0 {
      var q, p := ps[..|ps| - 1], ps[|ps| - 1];
      assert ps == q + [p];
      var acc := ParametersText(q);
      assert ParametersText(ps) == acc + (if |acc| == 0 then "" else ", ") + p;
      ParametersTextIsJoin(q);
      DropLeadingEmptyAppend(q, p);
      var d := DropLeadingEmpty(q);
      assert acc == Join(d);
      if |d| > 0 {
        JoinNonEmpty(d);
        JoinSnoc(d, p);
        assert DropLeadingEmpty(ps) == d + [p];
      } else if |p| == 0 {
        assert p == "";
        assert DropLeadingEmpty(ps) == [];
      } else {
        assert DropLeadingEmpty(ps) == [p];
      }
    }
  }

  /** An empty name after a non-empty one still adds the separator, so a
      trailing empty name leaves a dangling ", ": `["a", ""]` gives "a, ". */
  lemma {:induction false} ParametersTextTrailingEmpty(ps: seq<string>)
    requires |DropLeadingEmpty(ps)| > 0
    ensures ParametersText(ps + [""]) == ParametersText(ps) + ", "
    ensures ParametersText(["a", ""]) == "a, "
  {
    TrailingEmptyAfter(ps);
    TrailingEmptyExample();
  }

  /** The concrete input `["a", ""]`. */
  lemma TrailingEmptyExample()
    ensures ParametersText(["a", ""]) == "a, "
  {
    var one: seq<string> := ["a"];
    assert one[..0] == [];
    assert ParametersText(one) == "a";
    assert ["a", ""][..1] == one;
  }

  /** The general step: one more fold with an empty name. */
  lemma TrailingEmptyAfter(ps: seq<string>)
    requires |DropLeadingEmpty(ps)| > 0
    ensures ParametersText(ps + [""]) == ParametersText(ps) + ", "
  {
    assert (ps + [""])[..|ps|] == ps;
    ParametersTextIsJoin(ps);
    JoinNonEmpty(DropLeadingEmpty(ps));
  }

  lemma JoinSnoc(d: seq<string>, p: string)
    requires |d| > 0
    ensures Join(d + [p]) == Join(d) + ", " + p
  {
    assert (d + [p])[..|d|] == d;
  }

  /** With no empty names the fold is the plain ", " join; an empty list
      gives the empty string. */
  lemma ParametersTextOfNames(ps: seq<string>)
    requires forall i :: 0 <= i < |ps| ==> |ps[i]| > 0
    ensures ParametersText(ps) == Join(ps)
    ensures |ps| == 0 ==> ParametersText(ps) == ""
  {
    ParametersTextIsJoin(ps);
  }

  // ---- messages ----

  /** The message title following "DATAUIOBJECTS-" in each template. */
  function Title(e: Error): string {
    match e
    case Unknown(_) => "Unknown Error"
    case NotImplemented(_) => "Not Implemented"
    case NotFound(_, _, _) => "Not Found"
    case InvalidParameters(_, _) => "Invalid Parameters"
    case Lower(_, _) => "Lower Error"
    case TypeMismatch(_, _, _) => "Type Mismatch Error"
    case UnexpectedNil(_, _) => "Unexpected Nil Error"
  }

  /** The trailing "(DATAUIOBJECTS:code)" argument; every case but
      `notFound` puts a space before it. */
  function CodeSuffix(e: Error): string {
    (if e.NotFound? then "" else " ") + "(" + Domain + ":" + NatToString(CodeOf(e).RawValue()) + ")"
  }

  /** The arguments substituted into the template, in order. */
  function Arguments(e: Error): (r: seq<string>)
    ensures |r| > 0 && r[|r| - 1] == CodeSuffix(e)
  {
    match e
    case Unknown(_) => [CodeSuffix(e)]
    case NotImplemented(_) => [CodeSuffix(e)]
    case NotFound(field, value, _) => [field, value, CodeSuffix(e)]
    case InvalidParameters(ps, _) => [ParametersText(ps), CodeSuffix(e)]
    case Lower(err, _) => [err.localizedDescription, CodeSuffix(e)]
    case TypeMismatch(expected, actual, _) => [expected, actual, CodeSuffix(e)]
    case UnexpectedNil(name, _) => [name, CodeSuffix(e)]
  }

  /** The template's text before its directives. */
  function Heading(e: Error): string {
    Domain + "-" + Title(e)
  }

  lemma HeadingHasNoDirective(e: Error)
    ensures NoDirective(Heading(e))
  {
    assert NoDirective(Domain);
    assert NoDirective("-");
    NoDirectiveAppend(Domain, "-");
    TitleHasNoDirective(e);
    NoDirectiveAppend(Domain + "-", Title(e));
  }

  lemma TitleHasNoDirective(e: Error)
    ensures NoDirective(Title(e))
  {
    match e
    case Unknown(_) => assert NoDirective("Unknown Error");
    case NotImplemented(_) => assert NoDirective("Not Implemented");
    case NotFound(_, _, _) => assert NoDirective("Not Found");
    case InvalidParameters(_, _) => assert NoDirective("Invalid Parameters");
    case Lower(_, _) => assert NoDirective("Lower Error");
    case TypeMismatch(_, _, _) => assert NoDirective("Type Mismatch Error");
    case UnexpectedNil(_, _) => assert NoDirective("Unexpected Nil Error");
  }

  lemma NoDirectiveAppend(a: string, b: string)
    requires NoDirective(a) && NoDirective(b)
    ensures NoDirective(a + b)
  {
    forall i | 0 <= i < |a + b|
      ensures (a + b)[i] != '%'
    {
      if i >= |a| { assert (a + b)[i] == b[i - |a|]; }
    }
  }

  /** The format template (localisation is the identity here). */
  function Template(e: Error): string {
    Heading(e) + Directives(|Arguments(e)|)
  }

  /** `errorString`: the template with its arguments substituted, which is
      the heading followed by the arguments. */
  function ErrorString(e: Error): (r: string)
    ensures r == Heading(e) + Concat(Arguments(e))
  {
    HeadingHasNoDirective(e);
    FormatText(Heading(e), Directives(|Arguments(e)|), Arguments(e));
    FormatDirectives(Arguments(e));
    Format(Template(e), Arguments(e))
  }

  /** Every message starts with the domain and the case's title and ends
      with the domain and the case's own code. */
  lemma ErrorStringNamesCode(e: Error)
    ensures |ErrorString(e)| >= |Heading(e)| && ErrorString(e)[..|Heading(e)|] == Heading(e)
    ensures |ErrorString(e)| >= |CodeSuffix(e)|
    ensures ErrorString(e)[|ErrorString(e)| - |CodeSuffix(e)|..] == CodeSuffix(e)
  {
    var args := Arguments(e);
    assert args[..|args| - 1] + [args[|args| - 1]] == args;
    ConcatAppend(args[..|args| - 1], args[|args| - 1]);
  }

  /** `errorDescription`: always the error string. */
  function ErrorDescription(e: Error): (r: Option<string>)
    ensures r.Some? && r.value == ErrorString(e)
  {
    Some(ErrorString(e))
  }

  /** `failureReason`: the carried code location's, for every case. */
  function FailureReason(e: Error): (r: Option<string>)
    ensures r.Some? && r.value == e.loc.failureReason
  {
    Some(e.loc.failureReason)
  }

  /** Two messages with the same code suffix come from the same case: the
      code is recoverable from the message. */
  lemma SuffixIdentifiesCode(e1: Error, e2: Error)
    requires CodeSuffix(e1) == CodeSuffix(e2)
    ensures CodeOf(e1) == CodeOf(e2)
  {
    var n1, n2 := CodeOf(e1).RawValue(), CodeOf(e2).RawValue();
    var s1, s2 := NatToString(n1), NatToString(n2);
    var pre1 := (if e1.NotFound? then "" else " ") + "(" + Domain + ":";
    var pre2 := (if e2.NotFound? then "" else " ") + "(" + Domain + ":";
    assert CodeSuffix(e1) == pre1 + s1 + ")";
    assert CodeSuffix(e2) == pre2 + s2 + ")";
    FourDigits(n1);
    FourDigits(n2);
    assert |pre1| == |pre2|;
    assert s1 == CodeSuffix(e1)[|pre1|..|CodeSuffix(e1)| - 1];
    assert s2 == CodeSuffix(e2)[|pre2|..|CodeSuffix(e2)| - 1];
    DecimalRoundTrip(n1);
    DecimalRoundTrip(n2);
    CodeRawRoundTrip(CodeOf(e1));
    CodeRawRoundTrip(CodeOf(e2));
  }

  /** Helper for `SuffixIdentifiesCode`: every error code prints with four
      digits. */
  lemma FourDigits(n: nat)
    requires 1000 <= n < 10000
    ensures |NatToString(n)| == 4
  {
    var a := n / 10;
    var b := a / 10;
    var c := b / 10;
    assert 100 <= a < 1000 && 10 <= b < 100 && 1 <= c < 10;
    assert |NatToString(c)| == 1;
    assert |NatToString(b)| == |NatToString(c)| + 1;
    assert |NatToString(a)| == |NatToString(b)| + 1;
    assert |NatToString(n)| == |NatToString(a)| + 1;
  }

  // ---- NSError ----

  datatype NSError = NSError(domain: string, code: int, userInfo: map<string, Info>)

  /** The user-info entries each case writes over its code location's;
      `description` is what goes under the localized-description key,
      which `nsError` fills with the error string. */
  function OwnInfo(e: Error, description: Info): (r: map<string, Info>)
    ensures !e.UnexpectedNil? <==> DescriptionKey in r
    ensures DescriptionKey in r ==> r[DescriptionKey] == description
    ensures e.NotFound? ==> r.Keys == {"field", "value", DescriptionKey}
    ensures e.NotFound? ==> r["field"] == Text(e.field) && r["value"] == Text(e.value)
    ensures e.InvalidParameters? ==> r.Keys == {"Parameters", DescriptionKey}
    ensures e.InvalidParameters? ==> r["Parameters"] == Texts(e.parameters)
    ensures e.Lower? ==> r.Keys == {"Error", DescriptionKey} && r["Error"] == Wrapped(e.error)
    ensures e.TypeMismatch? ==> r.Keys == {"ExpectedType", "ActualType", DescriptionKey}
    ensures e.TypeMismatch? ==> r["ExpectedType"] == Text(e.expectedType) && r["ActualType"] == Text(e.actualType)
    ensures e.UnexpectedNil? ==> r == map["Name" := Text(e.name)]
    ensures e.Unknown? || e.NotImplemented? ==> r.Keys == {DescriptionKey}
  {
    match e
    case Unknown(_) => map[DescriptionKey := description]
    case NotImplemented(_) => map[DescriptionKey := description]
    case NotFound(field, value, _) => map["field" := Text(field), "value" := Text(value), DescriptionKey := description]
    case InvalidParameters(ps, _) => map["Parameters" := Texts(ps), DescriptionKey := description]
    case Lower(err, _) => map["Error" := Wrapped(err), DescriptionKey := description]
    case TypeMismatch(expected, actual, _) =>
      map["ExpectedType" := Text(expected), "ActualType" := Text(actual), DescriptionKey := description]
    case UnexpectedNil(name, _) => map["Name" := Text(name)]
  }

  /** `nsError`: the domain, the case's code, and the code location's user
      info overwritten by the case's own entries. */
  function NsError(e: Error): (r: NSError)
    ensures r.domain == Domain
    ensures CodeFromRaw(r.code) == Some(CodeOf(e))
    ensures r.userInfo.Keys == e.loc.userInfo.Keys + OwnInfo(e, Text(ErrorString(e))).Keys
    ensures forall k :: k in OwnInfo(e, Text(ErrorString(e))) ==> r.userInfo[k] == OwnInfo(e, Text(ErrorString(e)))[k]
    ensures forall k :: k in e.loc.userInfo && k !in OwnInfo(e, Text(ErrorString(e))) ==> r.userInfo[k] == e.loc.userInfo[k]
  {
    CodeRawRoundTrip(CodeOf(e));
    NSError(Domain, CodeOf(e).RawValue(), e.loc.userInfo + OwnInfo(e, Text(ErrorString(e))))
  }

  /** Only `unexpectedNil` leaves the localized description to the code
      location. */
  lemma NsErrorDescription(e: Error)
    ensures !e.UnexpectedNil? ==> DescriptionKey in NsError(e).userInfo
    ensures e.UnexpectedNil? ==> (DescriptionKey in NsError(e).userInfo <==> DescriptionKey in e.loc.userInfo)
  {
  }

  /** The description an `NSError` carries is the error's own
      `errorDescription`, for every case that sets one. */
  lemma NsErrorDescribesError(e: Error)
    requires !e.UnexpectedNil?
    ensures ErrorDescription(e).Some?
    ensures NsError(e).userInfo[DescriptionKey] == Text(ErrorDescription(e).value)
  {
  }

  /** Helper: the concatenation of two parts. */
  lemma ConcatPair(a: string, b: string)
    ensures Concat([a, b]) == a + b
  {
    assert [a, b][1..] == [b];
    assert [b][1..] == [];
    assert Concat([b]) == b + Concat([]);
    assert b + "" == b;
  }

  lemma RenderedInvalidParametersCode()
    ensures NatToString(1004) == "1004"
  {
    assert NatToString(1004) == NatToString(100) + [Digit(4)];
    assert NatToString(100) == NatToString(10) + [Digit(0)];
    assert NatToString(10) == NatToString(1) + [Digit(0)];
  }

  /** The `invalidParameters` message lists the names joined by ", "
      between its title and its code. */
  lemma InvalidParametersMessage(ps: seq<string>, loc: CodeLocation)
    requires forall i :: 0 <= i < |ps| ==> |ps[i]| > 0
    ensures Heading(InvalidParameters(ps, loc)) == Domain + "-" + "Invalid Parameters"
    ensures CodeSuffix(InvalidParameters(ps, loc)) == " " + "(" + Domain + ":" + "1004" + ")"
    ensures ErrorString(InvalidParameters(ps, loc)) ==
      Heading(InvalidParameters(ps, loc)) + (Join(ps) + CodeSuffix(InvalidParameters(ps, loc)))
  {
    var e := InvalidParameters(ps, loc);
    assert Arguments(e) == [ParametersText(ps), CodeSuffix(e)];
    ConcatPair(ParametersText(ps), CodeSuffix(e));
    RenderedInvalidParametersCode();
    ParametersTextOfNames(ps);
  }
}
