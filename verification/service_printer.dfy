/** The lines the client generator prints for a file: a protocol listing
    one signature per method, a final class implementing it with one
    method block per method, and the lint markers around everything. */
module ServicePrinter {
  import opened Wrappers
  import opened Strings
  import opened Descriptor
  import opened Parsing
  import opened MethodExtensions
  import opened ClientGenerator

  /** Reads the access-level keyword that opens a declaration line and
      returns the rest of the line. */
  function ParseDeclaration(line: string): Option<(Visibility, string)>
  {
    if StartsWith(line, "internal ") then Some((Internal, line[9..]))
    else if StartsWith(line, "public ") then Some((Public, line[7..]))
    else if StartsWith(line, "package ") then Some((Package, line[8..]))
    else None
  }

  /** Reads an implementation line `<visibility> <signature> {` back into
      its visibility and signature parts. */
  function ParseImplementationLine(line: string): Option<(Visibility, SignatureParts)>
  {
    match ParseDeclaration(line)
    case None => None
    case Some((v, rest)) =>
      match StripSuffix(rest, " {")
      case None => None
      case Some(signature) =>
        match ParseSignature(signature)
        case None => None
        case Some(parts) => Some((v, parts))
  }

  /** A line that starts with a visibility keyword and a space reads back
      as that visibility and the rest of the line. */
  lemma DeclarationRoundTrip(v: Visibility, rest: string)
    ensures ParseDeclaration(VisibilityKeyword(v) + " " + rest) == Some((v, rest))
  {
    var line := VisibilityKeyword(v) + " " + rest;
    StartsWithConcat(VisibilityKeyword(v) + " ", rest);
    match v
    case Internal =>
    case Public =>
      NotStartsWithAt(line, "internal ", 0);
    case Package =>
      NotStartsWithAt(line, "internal ", 0);
      NotStartsWithAt(line, "public ", 1);
  }

  /** A declaration prefixed with a visibility keyword and a space. */
  function DeclarationLine(v: Visibility, rest: string): string
  {
    VisibilityKeyword(v) + " " + rest
  }

  /** A line declaring one visibility does not start with the keyword of
      another. */
  lemma KeywordsExclusive(v: Visibility, w: Visibility, rest: string)
    requires v != w
    ensures !StartsWith(DeclarationLine(v, rest), VisibilityKeyword(w) + " ")
  {
    var line := DeclarationLine(v, rest);
    DeclarationRoundTrip(v, rest);
    match (v, w)
    case (Internal, _) => NotStartsWithAt(line, VisibilityKeyword(w) + " ", 0);
    case (Public, Internal) => NotStartsWithAt(line, "internal ", 0);
    case (Public, Package) => NotStartsWithAt(line, "package ", 1);
    case (Package, Internal) => NotStartsWithAt(line, "internal ", 0);
    case (Package, Public) => NotStartsWithAt(line, "public ", 1);
  }

  /** A line whose first character is neither `i` nor `p` starts with no
      visibility keyword. */
  lemma NoKeyword(line: string, w: Visibility)
    requires |line| > 0 && line[0] != 'i' && line[0] != 'p'
    ensures !StartsWith(line, VisibilityKeyword(w) + " ")
  {
    NotStartsWithAt(line, VisibilityKeyword(w) + " ", 0);
  }

  /** A line whose first character is neither `i` nor `p` declares no
      visibility. */
  lemma NoDeclaration(line: string)
    requires |line| > 0 && line[0] != 'i' && line[0] != 'p'
    ensures ParseDeclaration(line) == None
  {
    NotStartsWithAt(line, "internal ", 0);
    NotStartsWithAt(line, "public ", 0);
    NotStartsWithAt(line, "package ", 0);
  }

  /** The declaration line of a class method: the visibility keyword, the
      signature and the opening brace. */
  function ImplementationLine(v: Visibility, signature: string): string
  {
    DeclarationLine(v, signature + " {")
  }

  /** An implementation line declares the visibility it was assembled
      with. */
  lemma ImplementationLineDeclares(v: Visibility, signature: string)
    ensures ParseDeclaration(ImplementationLine(v, signature)) == Some((v, signature + " {"))
  {
    DeclarationRoundTrip(v, signature + " {");
  }

  /** An implementation line reads back as its visibility and signature
      parts whenever the signature itself reads back. */
  lemma ImplementationLineRoundTrip(v: Visibility, signature: string, parts: SignatureParts)
    requires ParseSignature(signature) == Some(parts)
    ensures ParseImplementationLine(ImplementationLine(v, signature)) == Some((v, parts))
  {
    ImplementationLineDeclares(v, signature);
    assert (signature + " {")[..|signature|] == signature;
  }

  /** The protocol requirement printed for a method: a blank line, the
      availability attribute and the signature without defaults. */
  function MethodInterface(m: Method, options: GeneratorOptions, naming: Naming): (r: seq<string>)
    ensures |r| == 3
  {
    ["", AsyncAwaitAvailabilityAnnotation(m), AsyncAwaitThrowingSignature(m, options, naming, false)]
  }

  /** The signature line of a protocol requirement carries no visibility
      keyword; it opens with the backtick-escaped name and reads back as the
      method's name, input type, async flag and return type, without
      defaults. */
  lemma InterfaceDeclaresMethod(m: Method, options: GeneratorOptions, naming: Naming)
    ensures var line := MethodInterface(m, options, naming)[2];
      && StartsWith(line, "func `" + MethodName(m, options, naming) + "`(")
      && ParseDeclaration(line) == None
      && ('`' !in MethodName(m, options, naming) && ')' !in naming.fullName(m.inputType) ==>
        ParseSignature(line) == Some(SignatureParts(
          MethodName(m, options, naming), naming.fullName(m.inputType), false,
          MethodShape(m) == Unary, ReturnValue(m, naming))))
  {
    var signature := AsyncAwaitThrowingSignature(m, options, naming, false);
    assert MethodInterface(m, options, naming)[2] == signature;
    assert signature[0] == ("func `" + MethodName(m, options, naming) + "`(")[0];
    NoDeclaration(signature);
    if '`' !in MethodName(m, options, naming) && ')' !in naming.fullName(m.inputType) {
      SignatureRoundTrip(m, options, naming, false);
    }
  }

  /** The class method printed for a method: a blank line, the
      availability attribute, the declaration line, the body and the
      closing brace. */
  function MethodImplementation(m: Method, options: GeneratorOptions, naming: Naming): (r: seq<string>)
    ensures |r| == 5
  {
    ["", AsyncAwaitAvailabilityAnnotation(m),
     ImplementationLine(options.visibility, AsyncAwaitThrowingSignature(m, options, naming, true)),
     AsyncAwaitThrowingReturnValue(m, naming), "}"]
  }

  /** The declaration line of a class method carries the configured
      visibility followed by the signature with defaults: it reads back as
      that visibility and the method's name, input type, async flag and
      return type. */
  lemma ImplementationDeclaresMethod(m: Method, options: GeneratorOptions, naming: Naming)
    ensures var line := MethodImplementation(m, options, naming)[2];
      && ParseDeclaration(line).Some? && ParseDeclaration(line).value.0 == options.visibility
      && ('`' !in MethodName(m, options, naming) && ')' !in naming.fullName(m.inputType) ==>
        ParseImplementationLine(line) == Some((options.visibility, SignatureParts(
          MethodName(m, options, naming), naming.fullName(m.inputType), true,
          MethodShape(m) == Unary, ReturnValue(m, naming)))))
  {
    var signature := AsyncAwaitThrowingSignature(m, options, naming, true);
    assert MethodImplementation(m, options, naming)[2] == ImplementationLine(options.visibility, signature);
    ImplementationLineDeclares(options.visibility, signature);
    if '`' !in MethodName(m, options, naming) && ')' !in naming.fullName(m.inputType) {
      SignatureRoundTrip(m, options, naming, true);
      ImplementationLineRoundTrip(options.visibility, signature, SignatureParts(
        MethodName(m, options, naming), naming.fullName(m.inputType), true,
        MethodShape(m) == Unary, ReturnValue(m, naming)));
    }
  }

  /** The protocol requirements of the methods, in declaration order. */
  function InterfaceBlocks(methods: seq<Method>, options: GeneratorOptions, naming: Naming): (r: seq<seq<string>>)
    ensures |r| == |methods|
    ensures forall i :: 0 <= i < |methods| ==> r[i] == MethodInterface(methods[i], options, naming)
    ensures forall i :: 0 <= i < |r| ==> |r[i]| == 3
  {
    seq(|methods|, i requires 0 <= i < |methods| => MethodInterface(methods[i], options, naming))
  }

  /** The class methods of the methods, in declaration order. */
  function ImplementationBlocks(methods: seq<Method>, options: GeneratorOptions, naming: Naming): (r: seq<seq<string>>)
    ensures |r| == |methods|
    ensures forall i :: 0 <= i < |methods| ==> r[i] == MethodImplementation(methods[i], options, naming)
    ensures forall i :: 0 <= i < |r| ==> |r[i]| == 5
  {
    seq(|methods|, i requires 0 <= i < |methods| => MethodImplementation(methods[i], options, naming))
  }

  /** The transport type the generated class stores and is initialised
      with. */
  const ProtocolClientInterface := "Connect.ProtocolClientInterface"

  /** The lines between the protocol requirements and the class methods:
      the protocol's closing brace, the class declaration, the stored
      client and the initialiser. */
  function ClassOpening(service: Service, v: Visibility): seq<string>
  {
    [ "}",
      "",
      "/// Concrete implementation of `" + service.protocolName + "`.",
      DeclarationLine(v, "final class " + service.implementationName + ": " + service.protocolName + ", Sendable {"),
      "private let client: " + ProtocolClientInterface,
      "",
      DeclarationLine(v, "init(client: " + ProtocolClientInterface + ") {"),
      "self.client = client",
      "}" ]
  }

  lemma SliceOfPrefix(x: seq<string>, y: seq<string>, i: nat, j: nat)
    requires i <= j <= |x|
    ensures (x + y)[i..j] == x[i..j]
  {
  }

  lemma SliceOfSuffix(x: seq<string>, y: seq<string>, i: nat, j: nat)
    requires i <= j <= |y|
    ensures (x + y)[|x| + i..|x| + j] == y[i..j]
  {
  }

  /** The lines of a service assembled from one opening line, the
      requirement lines, nine class-opening lines, the class-method lines
      and one closing line. */
  function Assemble(opening: string, a: seq<string>, middle: seq<string>, b: seq<string>): seq<string>
  {
    [opening] + a + middle + b + ["}"]
  }

  /** Requirement block `i` lands after the opening line. */
  lemma InterfaceSlot(opening: string, interfaces: seq<seq<string>>, middle: seq<string>, b: seq<string>, i: nat)
    requires forall j :: 0 <= j < |interfaces| ==> |interfaces[j]| == 3
    requires i < |interfaces|
    ensures 4 + 3 * i <= |Assemble(opening, Concat(interfaces), middle, b)|
    ensures Assemble(opening, Concat(interfaces), middle, b)[1 + 3 * i..4 + 3 * i] == interfaces[i]
  {
    var a := Concat(interfaces);
    ConcatBlock(interfaces, 3, i);
    var rest := middle + (b + ["}"]);
    assert Assemble(opening, a, middle, b) == [opening] + (a + rest);
    SliceOfSuffix([opening], a + rest, 3 * i, 3 * i + 3);
    SliceOfPrefix(a, rest, 3 * i, 3 * i + 3);
  }

  /** Class-method block `i` lands after the opening line, the requirement
      lines and the nine class-opening lines. */
  lemma ImplementationSlot(opening: string, a: seq<string>, middle: seq<string>, implementations: seq<seq<string>>, i: nat)
    requires forall j :: 0 <= j < |implementations| ==> |implementations[j]| == 5
    requires |middle| == 9 && i < |implementations|
    ensures |a| + 15 + 5 * i <= |Assemble(opening, a, middle, Concat(implementations))|
    ensures Assemble(opening, a, middle, Concat(implementations))[|a| + 10 + 5 * i..|a| + 15 + 5 * i] == implementations[i]
  {
    var b := Concat(implementations);
    ConcatBlock(implementations, 5, i);
    var head := [opening] + a + middle;
    assert Assemble(opening, a, middle, b) == head + (b + ["}"]);
    SliceOfSuffix(head, b + ["}"], 5 * i, 5 * i + 5);
    SliceOfPrefix(b, ["}"], 5 * i, 5 * i + 5);
  }

  /** With three lines per requirement, class-method block `i` starts at
      line `3 * n + 10 + 5 * i`. */
  lemma ImplementationSlotAfter(opening: string, interfaces: seq<seq<string>>, middle: seq<string>,
                                implementations: seq<seq<string>>, i: nat)
    requires forall j :: 0 <= j < |interfaces| ==> |interfaces[j]| == 3
    requires forall j :: 0 <= j < |implementations| ==> |implementations[j]| == 5
    requires |middle| == 9 && i < |implementations|
    ensures 3 * |interfaces| + 15 + 5 * i <= |Assemble(opening, Concat(interfaces), middle, Concat(implementations))|
    ensures Assemble(opening, Concat(interfaces), middle, Concat(implementations))
      [3 * |interfaces| + 10 + 5 * i..3 * |interfaces| + 15 + 5 * i] == implementations[i]
  {
    ConcatLength(interfaces, 3);
    ImplementationSlot(opening, Concat(interfaces), middle, implementations, i);
  }

  /** The printed lines of a service: the protocol declaration, one
      requirement per method, the class opening, one class method per
      method and the class's closing brace. */
  function PrintService(service: Service, options: GeneratorOptions, naming: Naming): (r: seq<string>)
    ensures |r| >= 11
    ensures r[0] == DeclarationLine(options.visibility, "protocol " + service.protocolName + ": Sendable {")
    ensures r[|r| - 1] == "}"
  {
    Assemble(DeclarationLine(options.visibility, "protocol " + service.protocolName + ": Sendable {"),
      Concat(InterfaceBlocks(service.methods, options, naming)), ClassOpening(service, options.visibility),
      Concat(ImplementationBlocks(service.methods, options, naming)))
  }

  /** A service takes eight lines per method and eleven of its own. */
  lemma ServiceLength(service: Service, options: GeneratorOptions, naming: Naming)
    ensures |PrintService(service, options, naming)| == 8 * |service.methods| + 11
  {
    ConcatLength(InterfaceBlocks(service.methods, options, naming), 3);
    ConcatLength(ImplementationBlocks(service.methods, options, naming), 5);
  }

  /** The protocol lists the methods' requirements in declaration order:
      requirement `i` occupies lines `1 + 3 * i` to `3 + 3 * i`. */
  lemma {:induction false} InterfacesInOrder(service: Service, options: GeneratorOptions, naming: Naming, i: nat)
    requires i < |service.methods|
    ensures var r := PrintService(service, options, naming);
      && |r| == 8 * |service.methods| + 11
      && r[1 + 3 * i..4 + 3 * i] == MethodInterface(service.methods[i], options, naming)
  {
    ServiceLength(service, options, naming);
    var opening := DeclarationLine(options.visibility, "protocol " + service.protocolName + ": Sendable {");
    var interfaces := InterfaceBlocks(service.methods, options, naming);
    var b := Concat(ImplementationBlocks(service.methods, options, naming));
    var middle := ClassOpening(service, options.visibility);
    assert PrintService(service, options, naming) == Assemble(opening, Concat(interfaces), middle, b);
    InterfaceSlot(opening, interfaces, middle, b, i);
    assert interfaces[i] == MethodInterface(service.methods[i], options, naming);
  }

  /** The class lists the methods' implementations in declaration order:
      class method `i` occupies lines `3 * n + 10 + 5 * i` to
      `3 * n + 14 + 5 * i`, where `n` is the number of methods. */
  lemma {:induction false} ImplementationsInOrder(service: Service, options: GeneratorOptions, naming: Naming, i: nat)
    requires i < |service.methods|
    ensures 3 * |service.methods| + 15 + 5 * i <= |PrintService(service, options, naming)|
    ensures PrintService(service, options, naming)[3 * |service.methods| + 10 + 5 * i..3 * |service.methods| + 15 + 5 * i]
      == MethodImplementation(service.methods[i], options, naming)
  {
    ImplementationBlockOfService(service, options, naming, i);
    assert ImplementationBlocks(service.methods, options, naming)[i] == MethodImplementation(service.methods[i], options, naming);
  }

  /** Class-method block `i` of a service sits after its requirements and
      the class opening. */
  lemma ImplementationBlockOfService(service: Service, options: GeneratorOptions, naming: Naming, i: nat)
    requires i < |service.methods|
    ensures 3 * |service.methods| + 15 + 5 * i <= |PrintService(service, options, naming)|
    ensures PrintService(service, options, naming)[3 * |service.methods| + 10 + 5 * i..3 * |service.methods| + 15 + 5 * i]
      == ImplementationBlocks(service.methods, options, naming)[i]
  {
    ImplementationSlotAfter(DeclarationLine(options.visibility, "protocol " + service.protocolName + ": Sendable {"),
      InterfaceBlocks(service.methods, options, naming), ClassOpening(service, options.visibility),
      ImplementationBlocks(service.methods, options, naming), i);
  }

  /** A declaration line starts with its own keyword. */
  lemma DeclarationLineStarts(v: Visibility, rest: string)
    ensures StartsWith(DeclarationLine(v, rest), VisibilityKeyword(v) + " ")
  {
    StartsWithConcat(VisibilityKeyword(v) + " ", rest);
  }

  /** A declaration line starts with the keyword `w` exactly when it
      declares `w`. */
  lemma DeclarationLineKeyword(v: Visibility, w: Visibility, rest: string)
    ensures StartsWith(DeclarationLine(v, rest), VisibilityKeyword(w) + " ") <==> v == w
  {
    if v == w {
      DeclarationLineStarts(v, rest);
    } else {
      KeywordsExclusive(v, w, rest);
    }
  }

  /** No line of a protocol requirement starts with a visibility keyword. */
  lemma InterfaceDeclaresNothing(m: Method, options: GeneratorOptions, naming: Naming, w: Visibility)
    ensures CountStartingWith(MethodInterface(m, options, naming), VisibilityKeyword(w) + " ") == 0
  {
    var lines := MethodInterface(m, options, naming);
    var p := VisibilityKeyword(w) + " ";
    AnnotationIsAttribute(m);
    NoKeyword(lines[1], w);
    InterfaceDeclaresMethod(m, options, naming);
    assert lines[2][0] == ("func `" + MethodName(m, options, naming) + "`(")[0];
    NoKeyword(lines[2], w);
    CountNone(lines, p);
  }

  /** The keyword count of a five-line class-method block whose
      declaration line declares `v` and whose other lines start with
      neither `i` nor `p`. */
  lemma ImplementationBlockCount(annotation: string, rest: string, body: string, v: Visibility, w: Visibility)
    requires |annotation| > 0 && annotation[0] == '@'
    requires |body| > 0 && (body[0] == 'v' || body[0] == 'l')
    ensures CountStartingWith(["", annotation, DeclarationLine(v, rest), body, "}"], VisibilityKeyword(w) + " ")
      == if w == v then 1 else 0
  {
    var lines := ["", annotation, DeclarationLine(v, rest), body, "}"];
    var p := VisibilityKeyword(w) + " ";
    DeclarationLineKeyword(v, w, rest);
    NoKeyword(lines[1], w);
    NoKeyword(lines[3], w);
    NoKeyword(lines[4], w);
    if w == v {
      CountOne(lines, p, 2);
    } else {
      CountNone(lines, p);
    }
  }

  /** Exactly one line of a class method, its declaration, starts with a
      visibility keyword, and that keyword is the configured one. */
  lemma ImplementationDeclaresOnce(m: Method, options: GeneratorOptions, naming: Naming, w: Visibility)
    ensures CountStartingWith(MethodImplementation(m, options, naming), VisibilityKeyword(w) + " ")
      == if w == options.visibility then 1 else 0
  {
    var signature := AsyncAwaitThrowingSignature(m, options, naming, true);
    var body := AsyncAwaitThrowingReturnValue(m, naming);
    AnnotationIsAttribute(m);
    BodyOpensWithDeclaration(m, naming);
    if MethodShape(m) == Unary {
      StartsWithFirstChar(body, "var request = ");
    } else {
      StartsWithFirstChar(body, "let stream: any Connect.");
    }
    ImplementationBlockCount(AsyncAwaitAvailabilityAnnotation(m), signature + " {",
      body, options.visibility, w);
  }

  /** Two lines of the class opening, the class declaration and the
      initialiser, start with a visibility keyword, and that keyword is the
      configured one. */
  lemma ClassOpeningDeclaresTwice(service: Service, v: Visibility, w: Visibility)
    ensures CountStartingWith(ClassOpening(service, v), VisibilityKeyword(w) + " ")
      == if w == v then 2 else 0
  {
    var lines := ClassOpening(service, v);
    var p := VisibilityKeyword(w) + " ";
    DeclarationLineKeyword(v, w, "final class " + service.implementationName + ": " + service.protocolName + ", Sendable {");
    DeclarationLineKeyword(v, w, "init(client: " + ProtocolClientInterface + ") {");
    NoKeyword(lines[0], w);
    NoKeyword(lines[2], w);
    NoKeyword(lines[7], w);
    NoKeyword(lines[8], w);
    assert lines[4][0] == 'p' && lines[4][1] == 'r';
    match w {
      case Internal => NotStartsWithAt(lines[4], p, 0);
      case Public => NotStartsWithAt(lines[4], p, 1);
      case Package => NotStartsWithAt(lines[4], p, 1);
    }
    NoPrefix(lines[1], p);
    NoPrefix(lines[5], p);
    TwoDeclarations(lines, p, w == v);
  }

  /** The empty line starts with no non-empty prefix. */
  lemma NoPrefix(line: string, p: string)
    requires line == "" && |p| > 0
    ensures !StartsWith(line, p)
  {
  }

  /** Nine lines of which only lines 3 and 6 may start with `p`, and both do
      exactly when `both` holds. */
  lemma TwoDeclarations(lines: seq<string>, p: string, both: bool)
    requires |lines| == 9
    requires forall k :: 0 <= k < 9 && k != 3 && k != 6 ==> !StartsWith(lines[k], p)
    requires StartsWith(lines[3], p) == both && StartsWith(lines[6], p) == both
    ensures CountStartingWith(lines, p) == if both then 2 else 0
  {
    if both {
      CountTwo(lines, p, 3, 6);
    } else {
      CountNone(lines, p);
    }
  }

  /** The count of lines with a prefix over an assembled service is the sum
      over its parts. */
  lemma AssembleCount(opening: string, a: seq<string>, middle: seq<string>, b: seq<string>, p: string)
    requires !StartsWith("}", p)
    ensures CountStartingWith(Assemble(opening, a, middle, b), p)
      == CountStartingWith([opening], p) + CountStartingWith(a, p) + CountStartingWith(middle, p) + CountStartingWith(b, p)
  {
    CountStartingWithAppend([opening], a, p);
    CountStartingWithAppend([opening] + a, middle, p);
    CountStartingWithAppend([opening] + a + middle, b, p);
    CountStartingWithAppend([opening] + a + middle + b, ["}"], p);
    CountNone(["}"], p);
  }

  /** The count of lines with a prefix over an assembled service, from the
      counts of its parts: none in any requirement block and `c` in every
      class-method block. */
  lemma AssembledCount(opening: string, interfaces: seq<seq<string>>, middle: seq<string>,
                       implementations: seq<seq<string>>, p: string, c: nat)
    requires !StartsWith("}", p)
    requires forall i :: 0 <= i < |interfaces| ==> CountStartingWith(interfaces[i], p) == 0
    requires forall i :: 0 <= i < |implementations| ==> CountStartingWith(implementations[i], p) == c
    ensures CountStartingWith(Assemble(opening, Concat(interfaces), middle, Concat(implementations)), p)
      == CountStartingWith([opening], p) + CountStartingWith(middle, p) + c * |implementations|
  {
    AssembleCount(opening, Concat(interfaces), middle, Concat(implementations), p);
    ConcatCount(interfaces, p, 0);
    ConcatCount(implementations, p, c);
  }

  /** Every declaration of a service carries the configured visibility:
      the protocol, the class, its initialiser and one class method per
      method start with its keyword, and no line starts with another. */
  lemma ServiceVisibilityUniform(service: Service, options: GeneratorOptions, naming: Naming, w: Visibility)
    ensures CountStartingWith(PrintService(service, options, naming), VisibilityKeyword(w) + " ")
      == if w == options.visibility then |service.methods| + 3 else 0
  {
    var v := options.visibility;
    var p := VisibilityKeyword(w) + " ";
    var opening := DeclarationLine(v, "protocol " + service.protocolName + ": Sendable {");
    var interfaces := InterfaceBlocks(service.methods, options, naming);
    var implementations := ImplementationBlocks(service.methods, options, naming);
    var c := if w == v then 1 else 0;
    forall i | 0 <= i < |interfaces|
      ensures CountStartingWith(interfaces[i], p) == 0
    {
      InterfaceDeclaresNothing(service.methods[i], options, naming, w);
    }
    forall i | 0 <= i < |implementations|
      ensures CountStartingWith(implementations[i], p) == c
    {
      ImplementationDeclaresOnce(service.methods[i], options, naming, w);
    }
    NoKeyword("}", w);
    AssembledCount(opening, interfaces, ClassOpening(service, v), implementations, p, c);
    ClassOpeningDeclaresTwice(service, v, w);
    OpeningDeclaresOnce(v, w, "protocol " + service.protocolName + ": Sendable {");
  }

  /** The protocol declaration line counts once for its own keyword and
      not at all for another. */
  lemma OpeningDeclaresOnce(v: Visibility, w: Visibility, rest: string)
    ensures CountStartingWith([DeclarationLine(v, rest)], VisibilityKeyword(w) + " ") == if w == v then 1 else 0
  {
    DeclarationLineKeyword(v, w, rest);
    if w == v {
      CountOne([DeclarationLine(v, rest)], VisibilityKeyword(w) + " ", 0);
    } else {
      CountNone([DeclarationLine(v, rest)], VisibilityKeyword(w) + " ");
    }
  }

  /** The number of declarations the services make: per service its
      protocol, class and initialiser and one class method per method. */
  function TotalDeclarations(services: seq<Service>): nat
  {
    if |services| == 0 then 0 else |services[0].methods| + 3 + TotalDeclarations(services[1..])
  }

  /** Each service's lines, preceded by a blank line, in declaration order. */
  function ServiceBlocks(services: seq<Service>, options: GeneratorOptions, naming: Naming): (r: seq<seq<string>>)
    ensures |r| == |services|
  {
    if |services| == 0 then []
    else [[""] + PrintService(services[0], options, naming)] + ServiceBlocks(services[1..], options, naming)
  }

  /** Block `i` is a blank line followed by the lines of service `i`. */
  lemma {:induction false} ServiceBlockAt(services: seq<Service>, options: GeneratorOptions, naming: Naming, i: nat)
    requires i < |services|
    ensures ServiceBlocks(services, options, naming)[i] == [""] + PrintService(services[i], options, naming)
  {
    if i > 0 {
      ServiceBlockAt(services[1..], options, naming, i - 1);
      assert services[1..][i - 1] == services[i];
    }
  }

  /** The services one after another, each preceded by a blank line. */
  function PrintServices(services: seq<Service>, options: GeneratorOptions, naming: Naming): seq<string>
  {
    Concat(ServiceBlocks(services, options, naming))
  }

  /** The printed file: every service of the file between the markers
      that switch the linter off and on again. */
  function PrintContent(services: seq<Service>, options: GeneratorOptions, naming: Naming): (r: seq<string>)
    ensures |r| >= 2
    ensures r[0] == "// swiftlint:disable all" && r[|r| - 1] == "// swiftlint:enable all"
    ensures r[1..|r| - 1] == PrintServices(services, options, naming)
  {
    ["// swiftlint:disable all"] + PrintServices(services, options, naming) + ["// swiftlint:enable all"]
  }

  /** Service `k`, preceded by its blank line, is printed right after
      the services before it: the file keeps the order in which it declares
      them. */
  lemma {:induction false} ServicesInOrder(services: seq<Service>, options: GeneratorOptions, naming: Naming, k: nat,
                                           r: seq<string>, blocks: seq<seq<string>>)
    requires r == PrintServices(services, options, naming)
    requires blocks == ServiceBlocks(services, options, naming)
    requires k < |services|
    ensures |Concat(blocks[..k])| + |blocks[k]| <= |r|
    ensures r[|Concat(blocks[..k])|..|Concat(blocks[..k])| + |blocks[k]|] == blocks[k]
  {
    ConcatAt(blocks, k);
  }

  /** Every declaration of the file carries the configured visibility:
      the lines that start with its keyword are exactly the declarations of
      the services, and no line starts with another keyword. */
  lemma ContentVisibilityUniform(services: seq<Service>, options: GeneratorOptions, naming: Naming, w: Visibility)
    ensures CountStartingWith(PrintContent(services, options, naming), VisibilityKeyword(w) + " ")
      == if w == options.visibility then TotalDeclarations(services) else 0
  {
    var p := VisibilityKeyword(w) + " ";
    var body := PrintServices(services, options, naming);
    ServicesVisibilityUniform(services, options, naming, w);
    var markerOn := "// swiftlint:disable all";
    var markerOff := "// swiftlint:enable all";
    NoKeyword(markerOn, w);
    NoKeyword(markerOff, w);
    CountNone([markerOn], p);
    CountNone([markerOff], p);
    CountStartingWithAppend([markerOn], body, p);
    CountStartingWithAppend([markerOn] + body, [markerOff], p);
  }

  /** The keyword count over the services, one service at a time. */
  lemma {:induction false} ServicesVisibilityUniform(services: seq<Service>, options: GeneratorOptions, naming: Naming, w: Visibility)
    ensures CountStartingWith(PrintServices(services, options, naming), VisibilityKeyword(w) + " ")
      == if w == options.visibility then TotalDeclarations(services) else 0
  {
    if |services| > 0 {
      var p := VisibilityKeyword(w) + " ";
      var blocks := ServiceBlocks(services, options, naming);
      assert blocks[1..] == ServiceBlocks(services[1..], options, naming);
      ServicesVisibilityUniform(services[1..], options, naming, w);
      ServiceVisibilityUniform(services[0], options, naming, w);
      BlankThenCount(PrintService(services[0], options, naming), Concat(blocks[1..]), p);
    }
  }

  /** A blank line adds nothing to the count of lines starting with a
      non-empty prefix. */
  lemma BlankThenCount(block: seq<string>, rest: seq<string>, p: string)
    requires |p| > 0
    ensures CountStartingWith([""] + block + rest, p) == CountStartingWith(block, p) + CountStartingWith(rest, p)
  {
    CountNone([""], p);
    CountStartingWithAppend([""], block, p);
    CountStartingWithAppend([""] + block, rest, p);
  }
}
