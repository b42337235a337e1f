/** Readers for the text the generator emits. Each one inverts an emitting
    function of the model, so that a round-trip lemma can state that the
    emitted text determines the values it was built from. */
module Parsing {
  import opened Wrappers
  import opened Strings
  import opened Descriptor

  /** Position of the first `c` in `s`, or `|s|` when there is none. */
  function IndexOf(s: string, c: char): (i: nat)
    ensures i <= |s|
    ensures i < |s| ==> s[i] == c
    ensures forall j :: 0 <= j < i ==> s[j] != c
  {
    if |s| == 0 then 0
    else if s[0] == c then 0
    else 1 + IndexOf(s[1..], c)
  }

  /** Position of the last `c` in `s`. */
  function LastIndexOf(s: string, c: char): (r: Option<nat>)
    ensures r.Some? ==> r.value < |s| && s[r.value] == c
    ensures r.Some? ==> forall j :: r.value < j < |s| ==> s[j] != c
    ensures r.None? <==> c !in s
  {
    if |s| == 0 then None
    else if s[|s| - 1] == c then Some(|s| - 1)
    else LastIndexOf(s[..|s| - 1], c)
  }

  /** Removes the literal prefix `p` from `s`. */
  function StripPrefix(s: string, p: string): (r: Option<string>)
    ensures r.Some? <==> StartsWith(s, p)
    ensures r.Some? ==> s == p + r.value
  {
    if StartsWith(s, p) then Some(s[|p|..]) else None
  }

  /** Removes the literal suffix `p` from `s`. */
  function StripSuffix(s: string, p: string): (r: Option<string>)
    ensures r.Some? <==> EndsWith(s, p)
    ensures r.Some? ==> s == r.value + p
  {
    if EndsWith(s, p) then Some(s[..|s| - |p|]) else None
  }

  /** Splits a method path `/<service>/<method>` at its last slash. */
  function ParseMethodPath(p: string): Option<(string, string)>
  {
    if |p| == 0 || p[0] != '/' then None
    else
      match LastIndexOf(p, '/')
      case None => None
      case Some(k) => if k == 0 then None else Some((p[1..k], p[k + 1..]))
  }

  /** The values a `func` signature line is built from. */
  datatype SignatureParts = SignatureParts(
    methodName: string,
    inputName: string,
    includeDefaults: bool,
    isAsync: bool,
    returnType: string)

  const FuncIntro := "func `"
  const PopulatorIntro := "`(_ populator: ((inout "
  const PopulatorOutro := ") -> Void)?"
  const NilDefault := " = nil"
  const ParameterClose := ") "
  const AsyncMarker := "async "
  const ThrowsArrow := "throws -> "

  /** Reads a signature of the shape
      func `<name>`(_ populator: ((inout <input>) -> Void)?[ = nil]) [async ]throws -> <return>
      The method name ends at the first backtick and the input type at the
      first closing parenthesis. */
  function ParseSignature(s: string): Option<SignatureParts>
  {
    match StripPrefix(s, FuncIntro)
    case None => None
    case Some(s1) =>
      var n := IndexOf(s1, '`');
      ParseParameter(s1[..n], s1[n..])
  }

  /** Reads the parameter list that follows the method name. */
  function ParseParameter(name: string, s: string): Option<SignatureParts>
  {
    match StripPrefix(s, PopulatorIntro)
    case None => None
    case Some(s2) =>
      var k := IndexOf(s2, ')');
      ParseDefaults(name, s2[..k], s2[k..])
  }

  /** Reads the end of the closure type and the optional `= nil` default. */
  function ParseDefaults(name: string, input: string, s: string): Option<SignatureParts>
  {
    match StripPrefix(s, PopulatorOutro)
    case None => None
    case Some(s3) =>
      if StartsWith(s3, NilDefault) then ParseClose(name, input, true, s3[|NilDefault|..])
      else ParseClose(name, input, false, s3)
  }

  /** Reads the end of the parameter list. */
  function ParseClose(name: string, input: string, defaults: bool, s: string): Option<SignatureParts>
  {
    match StripPrefix(s, ParameterClose)
    case None => None
    case Some(s5) => ParseEffects(name, input, defaults, s5)
  }

  /** Reads the effect clause and the return type. */
  function ParseEffects(name: string, input: string, defaults: bool, s: string): Option<SignatureParts>
  {
    var isAsync := StartsWith(s, AsyncMarker);
    var s6 := if isAsync then s[|AsyncMarker|..] else s;
    match StripPrefix(s6, ThrowsArrow)
    case None => None
    case Some(ret) => Some(SignatureParts(name, input, defaults, isAsync, ret))
  }

  /** The signature text assembled from its parts, in the order the
      generator writes them. */
  function SignatureText(name: string, input: string, defaults: bool, isAsync: bool, ret: string): string
  {
    FuncIntro + (name + (PopulatorIntro + (input + ParameterTail(defaults, isAsync, ret))))
  }

  /** Everything after the input type name. */
  function ParameterTail(defaults: bool, isAsync: bool, ret: string): string
  {
    PopulatorOutro + ((if defaults then NilDefault else "") + CloseText(isAsync, ret))
  }

  function CloseText(isAsync: bool, ret: string): string
  {
    ParameterClose + EffectsText(isAsync, ret)
  }

  function EffectsText(isAsync: bool, ret: string): string
  {
    (if isAsync then AsyncMarker else "") + (ThrowsArrow + ret)
  }

  /** The first occurrence of `c` in `a + b` is right after `a` when `a`
      holds no `c` and `b` starts with it. */
  lemma IndexOfAfter(a: string, c: char, b: string)
    requires c !in a
    ensures IndexOf(a + b, c) == |a| <== |b| > 0 && b[0] == c
  {
    if |b| > 0 && b[0] == c {
      assert (a + b)[|a|] == c;
    }
  }

  lemma ParseEffectsRoundTrip(name: string, input: string, defaults: bool, isAsync: bool, ret: string)
    ensures ParseEffects(name, input, defaults, EffectsText(isAsync, ret))
      == Some(SignatureParts(name, input, defaults, isAsync, ret))
  {
    var t8 := ThrowsArrow + ret;
    if isAsync {
      StartsWithConcat(AsyncMarker, t8);
    } else {
      assert EffectsText(isAsync, ret) == t8;
      assert t8[0] == 't';
    }
    StartsWithConcat(ThrowsArrow, ret);
  }

  lemma ParseCloseRoundTrip(name: string, input: string, defaults: bool, isAsync: bool, ret: string)
    ensures ParseClose(name, input, defaults, CloseText(isAsync, ret))
      == Some(SignatureParts(name, input, defaults, isAsync, ret))
  {
    StartsWithConcat(ParameterClose, EffectsText(isAsync, ret));
    ParseEffectsRoundTrip(name, input, defaults, isAsync, ret);
  }

  lemma ParseDefaultsRoundTrip(name: string, input: string, defaults: bool, isAsync: bool, ret: string)
    ensures ParseDefaults(name, input, ParameterTail(defaults, isAsync, ret))
      == Some(SignatureParts(name, input, defaults, isAsync, ret))
  {
    var t6 := CloseText(isAsync, ret);
    var t5 := (if defaults then NilDefault else "") + t6;
    StartsWithConcat(PopulatorOutro, t5);
    assert StripPrefix(ParameterTail(defaults, isAsync, ret), PopulatorOutro) == Some(t5);
    if defaults {
      StartsWithConcat(NilDefault, t6);
    } else {
      assert t5 == t6;
      NotStartsWithAt(t6, NilDefault, 0);
    }
    ParseCloseRoundTrip(name, input, defaults, isAsync, ret);
  }

  lemma ParseParameterRoundTrip(name: string, input: string, defaults: bool, isAsync: bool, ret: string)
    requires ')' !in input
    ensures ParseParameter(name, PopulatorIntro + (input + ParameterTail(defaults, isAsync, ret)))
      == Some(SignatureParts(name, input, defaults, isAsync, ret))
  {
    var t4 := ParameterTail(defaults, isAsync, ret);
    var t3 := input + t4;
    StartsWithConcat(PopulatorIntro, t3);
    IndexOfAfter(input, ')', t4);
    assert t3[..|input|] == input && t3[|input|..] == t4;
    ParseDefaultsRoundTrip(name, input, defaults, isAsync, ret);
  }

  /** Reading a signature back yields exactly the parts it was assembled
      from, provided the name holds no backtick and the input type no
      closing parenthesis (neither can appear in a Swift identifier). */
  lemma ParseSignatureRoundTrip(name: string, input: string, defaults: bool, isAsync: bool, ret: string)
    requires '`' !in name && ')' !in input
    ensures ParseSignature(SignatureText(name, input, defaults, isAsync, ret))
      == Some(SignatureParts(name, input, defaults, isAsync, ret))
  {
    var t2 := PopulatorIntro + (input + ParameterTail(defaults, isAsync, ret));
    var t1 := name + t2;
    StartsWithConcat(FuncIntro, t1);
    IndexOfAfter(name, '`', t2);
    assert t1[..|name|] == name && t1[|name|..] == t2;
    ParseParameterRoundTrip(name, input, defaults, isAsync, ret);
  }

  /** A signature starts with `func` and its backtick-escaped name and ends
      with its return type. */
  lemma SignatureTextBounds(name: string, input: string, defaults: bool, isAsync: bool, ret: string)
    ensures StartsWith(SignatureText(name, input, defaults, isAsync, ret), "func `" + name + "`(")
    ensures EndsWith(SignatureText(name, input, defaults, isAsync, ret), ret)
  {
    SignatureTextStarts(name, input, defaults, isAsync, ret);
    SignatureTextEnds(name, input, defaults, isAsync, ret);
  }

  lemma SignatureTextStarts(name: string, input: string, defaults: bool, isAsync: bool, ret: string)
    ensures StartsWith(SignatureText(name, input, defaults, isAsync, ret), "func `" + name + "`(")
  {
    var rest := PopulatorIntro[2..] + (input + ParameterTail(defaults, isAsync, ret));
    assert PopulatorIntro == "`(" + PopulatorIntro[2..];
    Regroup5(FuncIntro, name, "`(", PopulatorIntro[2..], input + ParameterTail(defaults, isAsync, ret));
    StartsWithConcat("func `" + name + "`(", rest);
  }

  /** Regrouping a five-part concatenation. */
  lemma Regroup5(a: string, b: string, c: string, d: string, e: string)
    ensures a + (b + ((c + d) + e)) == (a + b + c) + (d + e)
  {
  }

  lemma SignatureTextEnds(name: string, input: string, defaults: bool, isAsync: bool, ret: string)
    ensures EndsWith(SignatureText(name, input, defaults, isAsync, ret), ret)
  {
    var t7 := EffectsText(isAsync, ret);
    EndsWithPrepend(ThrowsArrow, ret, ret);
    EndsWithPrepend(if isAsync then AsyncMarker else "", ThrowsArrow + ret, ret);
    EndsWithPrepend(ParameterClose, t7, ret);
    EndsWithPrepend(if defaults then NilDefault else "", CloseText(isAsync, ret), ret);
    var t4 := ParameterTail(defaults, isAsync, ret);
    EndsWithPrepend(PopulatorOutro, (if defaults then NilDefault else "") + CloseText(isAsync, ret), ret);
    EndsWithPrepend(input, t4, ret);
    EndsWithPrepend(PopulatorIntro, input + t4, ret);
    EndsWithPrepend(name, PopulatorIntro + (input + t4), ret);
    EndsWithPrepend(FuncIntro, name + (PopulatorIntro + (input + t4)), ret);
  }

  /** The `= nil` default appears in a signature exactly when defaults are
      requested, as long as no name in it holds an equals sign. */
  lemma SignatureDefaultMarker(name: string, input: string, defaults: bool, isAsync: bool, ret: string)
    requires '=' !in name && '=' !in input && '=' !in ret
    ensures Contains(SignatureText(name, input, defaults, isAsync, ret), NilDefault) <==> defaults
  {
    var s := SignatureText(name, input, defaults, isAsync, ret);
    var close := CloseText(isAsync, ret);
    if defaults {
      ContainsInfix(PopulatorOutro, NilDefault, close);
      assert PopulatorOutro + NilDefault + close == ParameterTail(defaults, isAsync, ret);
      ContainsPrepend(input, ParameterTail(defaults, isAsync, ret), NilDefault);
      ContainsPrepend(PopulatorIntro, input + ParameterTail(defaults, isAsync, ret), NilDefault);
      ContainsPrepend(name, PopulatorIntro + (input + ParameterTail(defaults, isAsync, ret)), NilDefault);
      ContainsPrepend(FuncIntro, name + (PopulatorIntro + (input + ParameterTail(defaults, isAsync, ret))), NilDefault);
    } else {
      assert '=' !in EffectsText(isAsync, ret);
      assert '=' !in close;
      assert '=' !in ParameterTail(defaults, isAsync, ret);
      assert '=' !in s;
      assert NilDefault[1] == '=';
      MissingCharNotContained(s, NilDefault, '=');
    }
  }

  /** The populator parameter as declared: a closure that may customise
      the request, optionally defaulted to `nil`. */
  function PopulatorParameter(input: string, defaults: bool): string
  {
    "_ populator: ((inout " + input + PopulatorOutro + (if defaults then NilDefault else "")
  }

  /** Regrouping of a right-nested concatenation of nine pieces. */
  lemma Regroup(a: string, b: string, c1: string, c2: string, d: string, e: string, f: string, g: string, h: string)
    ensures a + (b + ((c1 + c2) + (d + (e + (f + (g + h))))))
      == (a + b + c1 + (c2 + d + e + f) + g) + h
  {
  }

  /** A signature opens with the backtick-escaped name and the populator
      parameter, which depends only on the input type and the default flag. */
  lemma SignatureOpensWithPopulator(name: string, input: string, defaults: bool, isAsync: bool, ret: string)
    ensures StartsWith(SignatureText(name, input, defaults, isAsync, ret),
      "func `" + name + "`(" + PopulatorParameter(input, defaults) + ") ")
  {
    var nil := if defaults then NilDefault else "";
    var effects := EffectsText(isAsync, ret);
    assert PopulatorIntro == "`(" + "_ populator: ((inout ";
    Regroup(FuncIntro, name, "`(", "_ populator: ((inout ", input, PopulatorOutro, nil, ParameterClose, effects);
    StartsWithConcat("func `" + name + "`(" + PopulatorParameter(input, defaults) + ") ", effects);
  }

  /** A signature ends with its effect clause and return type. */
  lemma SignatureEndsWithClose(name: string, input: string, defaults: bool, isAsync: bool, ret: string)
    ensures EndsWith(SignatureText(name, input, defaults, isAsync, ret),
      (if isAsync then ") async throws -> " else ") throws -> ") + ret)
  {
    var close := CloseText(isAsync, ret);
    if isAsync {
      assert close == ") async throws -> " + ret;
    } else {
      assert close == ") throws -> " + ret;
    }
    var t4 := ParameterTail(defaults, isAsync, ret);
    EndsWithPrepend(if defaults then NilDefault else "", close, close);
    EndsWithPrepend(PopulatorOutro, (if defaults then NilDefault else "") + close, close);
    EndsWithPrepend(input, t4, close);
    EndsWithPrepend(PopulatorIntro, input + t4, close);
    EndsWithPrepend(name, PopulatorIntro + (input + t4), close);
    EndsWithPrepend(FuncIntro, name + (PopulatorIntro + (input + t4)), close);
  }

  /** Reads back an idempotency literal. */
  function ParseIdempotencyLevel(s: string): Option<Idempotency>
  {
    if s == "unknown" then Some(IdempotencyUnknown)
    else if s == "noSideEffects" then Some(NoSideEffects)
    else if s == "idempotent" then Some(Idempotent)
    else None
  }

  /** Reads back a stream-type tag. */
  function ParseStreamType(s: string): Option<Shape>
  {
    if s == ".bidirectionalStream" then Some(Bidirectional)
    else if s == ".serverStream" then Some(ServerStream)
    else if s == ".clientStream" then Some(ClientStream)
    else if s == ".unary" then Some(Unary)
    else None
  }

  /** Reads back a Swift access-level keyword. */
  function ParseVisibility(s: string): Option<Visibility>
  {
    if s == "internal" then Some(Internal)
    else if s == "public" then Some(Public)
    else if s == "package" then Some(Package)
    else None
  }
}
