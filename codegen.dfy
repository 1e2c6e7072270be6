/** The string-building helpers of the RPC code generator: which client call
    class a method type uses, which method names are reserved, how service and
    method ids are printed, how the C++ namespace is written, and the lines of
    an indented list and of the method-id lookup table.

    The proto tree, the id hash and the output file's rendering are not part
    of this model: a method or service is given by its name, path and type, the
    hash is a function passed in, and the output file is the sequence of lines
    written to it, each with its indentation. */
module Codegen {
  import opened Base

  datatype MethodType =
    | Unary
    | ServerStreaming
    | ClientStreaming
    | BidirectionalStreaming
    | UnknownType(name: string)

  /** The exceptions the generator raises. */
  datatype CodegenError =
    | NotImplementedError(message: string)
    | ValueError(message: string)
    | IndexError

  datatype Result<T> = Success(value: T) | Failure(error: CodegenError)
  datatype Outcome = Pass | Fail(error: CodegenError)

  const RpcNamespace := "::pw::rpc"

  predicate StartsWith(s: string, prefix: string)
  {
    |prefix| <= |s| && s[..|prefix|] == prefix
  }

  // ---------------------------------------------------------------------------
  // Client call classes

  /** The client call class of each of the four method types. */
  function CallClass(t: MethodType): Option<string>
  {
    match t
    case Unary => Some("UnaryReceiver")
    case ServerStreaming => Some("ClientReader")
    case ClientStreaming => Some("ClientWriter")
    case BidirectionalStreaming => Some("ClientReaderWriter")
    case UnknownType(_) => None
  }

  /** client_call_type: the fully qualified client call class for a method
      of type t, its class name prefixed by prefix; any other type raises. */
  function ClientCallType(t: MethodType, prefix: string): (r: Result<string>)
    ensures r.Failure? <==> t.UnknownType?
    ensures r.Failure? ==> r.error == NotImplementedError("Unknown " + t.name)
    ensures r.Success? ==> StartsWith(r.value, RpcNamespace + "::" + prefix)
  {
    match CallClass(t)
    case None => Failure(NotImplementedError("Unknown " + t.name))
    case Some(callClass) => Success(RpcNamespace + "::" + prefix + callClass)
  }

  /** Reads back the method type from a qualified client call class. */
  function CallTypeOf(qualified: string, prefix: string): Option<MethodType>
  {
    var scope := RpcNamespace + "::" + prefix;
    if !StartsWith(qualified, scope) then None
    else
      var callClass := qualified[|scope|..];
      if callClass == "UnaryReceiver" then Some(Unary)
      else if callClass == "ClientReader" then Some(ServerStreaming)
      else if callClass == "ClientWriter" then Some(ClientStreaming)
      else if callClass == "ClientReaderWriter" then Some(BidirectionalStreaming)
      else None
  }

  /** Each method type maps to its own class: the class name determines the
      type it was generated for. */
  lemma ClientCallTypeRoundTrip(t: MethodType, prefix: string)
    requires ClientCallType(t, prefix).Success?
    ensures CallTypeOf(ClientCallType(t, prefix).value, prefix) == Some(t)
  {
    var scope := RpcNamespace + "::" + prefix;
    var callClass := CallClass(t).value;
    assert ClientCallType(t, prefix).value == scope + callClass;
    assert (scope + callClass)[|scope|..] == callClass;
  }

  /** So two different method types never share a client call class. */
  lemma ClientCallTypeInjective(t1: MethodType, t2: MethodType, prefix: string)
    requires ClientCallType(t1, prefix).Success? && ClientCallType(t2, prefix).Success?
    requires ClientCallType(t1, prefix) == ClientCallType(t2, prefix)
    ensures t1 == t2
  {
    ClientCallTypeRoundTrip(t1, prefix);
    ClientCallTypeRoundTrip(t2, prefix);
  }

  // ---------------------------------------------------------------------------
  // Reserved method names

  const ReservedMethodNames: set<string> := {"Service", "ServiceInfo", "Client"}

  /** _check_method_name: raises for a method whose name would clash with a
      name the generated code declares itself, and only for those. */
  function CheckMethodName(servicePath: string, name: string): (r: Outcome)
    ensures r.Fail? <==> name in ReservedMethodNames
    ensures r.Fail? ==> r.error.ValueError?
  {
    if name in ReservedMethodNames then
      Fail(ValueError(
        "\"" + servicePath + "." + name + "\" is not a valid method name! The name \""
        + name + "\" is reserved for internal use by pw_rpc."))
    else Pass
  }

  // ---------------------------------------------------------------------------
  // Ids

  predicate IsLowerHexDigit(c: char)
  {
    '0' <= c <= '9' || 'a' <= c <= 'f'
  }

  predicate IsLowerHex(s: string)
  {
    forall i :: 0 <= i < |s| ==> IsLowerHexDigit(s[i])
  }

  function HexDigit(d: nat): (c: char)
    requires d < 16
    ensures IsLowerHexDigit(c) && DigitValue(c) == d
  {
    "0123456789abcdef"[d]
  }

  function DigitValue(c: char): (d: nat)
    requires IsLowerHexDigit(c)
    ensures d < 16
  {
    if c <= '9' then c as int - '0' as int else c as int - 'a' as int + 10
  }

  /** The shortest lowercase hexadecimal numeral of n. */
  function Hex(n: nat): (s: string)
    ensures |s| >= 1 && IsLowerHex(s)
  {
    if n < 16 then [HexDigit(n)] else Hex(n / 16) + [HexDigit(n % 16)]
  }

  /** The value of a lowercase hexadecimal numeral. */
  function ParseHex(s: string): nat
    requires IsLowerHex(s)
  {
    if s == [] then 0 else ParseHex(s[..|s| - 1]) * 16 + DigitValue(s[|s| - 1])
  }

  /** s left-padded with '0' to at least width characters. */
  function ZeroPad(s: string, width: nat): (r: string)
    ensures |r| == if |s| >= width then |s| else width
    ensures IsLowerHex(s) ==> IsLowerHex(r)
  {
    if |s| >= width then s else seq(width - |s|, _ => '0') + s
  }

  /** Python's f'0x{n:08x}': "0x", then at least eight lowercase hex digits
      whose value is n. */
  function FormatId(n: nat): (id: string)
    ensures |id| >= 10 && id[..2] == "0x" && IsLowerHex(id[2..])
    ensures ParseHex(id[2..]) == n
  {
    PaddedHexValue(n);
    "0x" + ZeroPad(Hex(n), 8)
  }

  function Pow16(k: nat): (p: nat)
    ensures p >= 1
  {
    if k == 0 then 1 else 16 * Pow16(k - 1)
  }

  lemma {:induction false} HexRoundTrip(n: nat)
    ensures ParseHex(Hex(n)) == n
  {
    if n >= 16 {
      HexRoundTrip(n / 16);
      var s := Hex(n / 16) + [HexDigit(n % 16)];
      assert s[..|s| - 1] == Hex(n / 16);
    }
  }

  lemma {:induction false} HexLength(n: nat, k: nat)
    requires 1 <= k && n < Pow16(k)
    ensures |Hex(n)| <= k
  {
    if n >= 16 {
      assert k >= 2;
      HexLength(n / 16, k - 1);
    }
  }

  /** Leading zeros do not change the value of a numeral. */
  lemma {:induction false} ParseHexLeadingZeros(zeros: nat, s: string)
    requires IsLowerHex(s)
    ensures IsLowerHex(seq(zeros, _ => '0') + s)
    ensures ParseHex(seq(zeros, _ => '0') + s) == ParseHex(s)
  {
    var z: string := seq(zeros, _ => '0');
    if s == [] {
      assert z + s == z;
      AllZerosParseToZero(zeros);
    } else {
      var t := z + s;
      assert t[..|t| - 1] == z + s[..|s| - 1];
      ParseHexLeadingZeros(zeros, s[..|s| - 1]);
    }
  }

  lemma {:induction false} AllZerosParseToZero(zeros: nat)
    ensures IsLowerHex(seq(zeros, _ => '0'))
    ensures ParseHex(seq(zeros, _ => '0')) == 0
  {
    if zeros > 0 {
      var z: string := seq(zeros, _ => '0');
      assert z[..|z| - 1] == seq(zeros - 1, _ => '0');
      AllZerosParseToZero(zeros - 1);
    }
  }

  /** Padding a numeral with zeros keeps its value. */
  lemma PaddedHexValue(n: nat)
    ensures IsLowerHex(ZeroPad(Hex(n), 8))
    ensures ParseHex(ZeroPad(Hex(n), 8)) == n
  {
    var h := Hex(n);
    HexRoundTrip(n);
    if |h| < 8 {
      ParseHexLeadingZeros(8 - |h|, h);
    }
  }

  /** For a 32-bit hash the padding is exact: the id is ten characters. */
  lemma FormatIdWidth(hash: u32)
    ensures |FormatId(hash)| == 10
  {
    assert Pow16(8) == 0x1_0000_0000;
    HexLength(hash, 8);
  }

  /** What get_id hashes: a service's full proto path, a method's name. */
  datatype IdItem = ServiceItem(protoPath: string) | MethodItem(name: string)

  function IdName(item: IdItem): string
  {
    match item
    case ServiceItem(path) => path
    case MethodItem(name) => name
  }

  /** get_id: the printed id of a service or method, under the id hash
      calculate. */
  function GetId(item: IdItem, calculate: string -> u32): (id: string)
    ensures |id| == 10 && id[..2] == "0x" && IsLowerHex(id[2..])
    ensures ParseHex(id[2..]) == calculate(IdName(item))
  {
    FormatIdWidth(calculate(IdName(item)));
    FormatId(calculate(IdName(item)))
  }

  // ---------------------------------------------------------------------------
  // Namespaces

  /** The namespace as written in the generated file: a leading "::" is
      dropped once, anything else is kept. */
  function StripLeadingScope(cppNamespace: string): (ns: string)
    ensures StartsWith(cppNamespace, "::") ==> "::" + ns == cppNamespace
    ensures !StartsWith(cppNamespace, "::") ==> ns == cppNamespace
  {
    if StartsWith(cppNamespace, "::") then cppNamespace[2..] else cppNamespace
  }

  /** The qualifier put in front of generated names in the MethodInfo
      specializations: "::" and the namespace, or nothing. */
  function GlobalQualifier(namespace: string): (q: string)
    ensures q == "" <==> namespace == ""
    ensures q != "" ==> StartsWith(q, "::") && q[2..] == namespace
  {
    if namespace != "" then "::" + namespace else ""
  }

  /** Stripping then qualifying gives back an absolute name: the namespace
      as declared when it already started with "::", else with "::" added. */
  lemma QualifiedNamespaceIsAbsolute(cppNamespace: string)
    ensures var q := GlobalQualifier(StripLeadingScope(cppNamespace));
      && (q == "" || StartsWith(q, "::"))
      && (StartsWith(cppNamespace, "::") && |cppNamespace| > 2 ==> q == cppNamespace)
      && (!StartsWith(cppNamespace, "::") && cppNamespace != "" ==> q == "::" + cppNamespace)
  {
  }

  // ---------------------------------------------------------------------------
  // Stub selection

  /** The signature and stub generators of a StubGenerator. */
  datatype Signature =
    UnarySignature | ServerStreamingSignature | ClientStreamingSignature | BidirectionalStreamingSignature
  datatype Stub = UnaryStub | ServerStreamingStub | ClientStreamingStub | BidirectionalStreamingStub

  /** The method type each signature generator is written for. */
  function SignatureType(s: Signature): MethodType
  {
    match s
    case UnarySignature => Unary
    case ServerStreamingSignature => ServerStreaming
    case ClientStreamingSignature => ClientStreaming
    case BidirectionalStreamingSignature => BidirectionalStreaming
  }

  /** The method type each stub generator is written for. */
  function StubType(s: Stub): MethodType
  {
    match s
    case UnaryStub => Unary
    case ServerStreamingStub => ServerStreaming
    case ClientStreamingStub => ClientStreaming
    case BidirectionalStreamingStub => BidirectionalStreaming
  }

  /** _select_stub_methods: the signature and stub generators written for the
      method's type; an unrecognized type raises. */
  function SelectStubMethods(t: MethodType): (r: Result<(Signature, Stub)>)
    ensures r.Failure? <==> t.UnknownType?
    ensures r.Failure? ==> r.error == NotImplementedError("Unrecognized method type " + t.name)
    ensures r.Success? ==> SignatureType(r.value.0) == t && StubType(r.value.1) == t
  {
    match t
    case Unary => Success((UnarySignature, UnaryStub))
    case ServerStreaming => Success((ServerStreamingSignature, ServerStreamingStub))
    case ClientStreaming => Success((ClientStreamingSignature, ClientStreamingStub))
    case BidirectionalStreaming =>
      Success((BidirectionalStreamingSignature, BidirectionalStreamingStub))
    case UnknownType(name) => Failure(NotImplementedError("Unrecognized method type " + name))
  }

  /** Stub selection and client call classes accept the same method types. */
  lemma StubsAndCallTypesAgree(t: MethodType, prefix: string)
    ensures SelectStubMethods(t).Success? <==> ClientCallType(t, prefix).Success?
  {
  }

  // ---------------------------------------------------------------------------
  // Output

  /** One line of generated output, with its indentation in spaces. */
  datatype Line = Line(indent: nat, text: string)

  /** The output file: lines are only ever appended. */
  class OutputFile {
    const filename: string
    var indentation: nat
    var lines: seq<Line>

    /** A new output file for filename: no lines yet, no indentation. */
    constructor (filename: string)
      ensures this.filename == filename
      ensures indentation == 0 && lines == []
    {
      this.filename := filename;
      indentation := 0;
      lines := [];
    }

    method WriteLine(text: string)
      modifies this`lines
      ensures lines == old(lines) + [Line(indentation, text)]
    {
      lines := lines + [Line(indentation, text)];
    }

    method Indent(amount: nat)
      modifies this`indentation
      ensures indentation == old(indentation) + amount
    {
      indentation := indentation + amount;
    }

    method Dedent(amount: nat)
      requires amount <= indentation
      modifies this`indentation
      ensures indentation == old(indentation) - amount
    {
      indentation := indentation - amount;
    }
  }

  /** The lines of indented_list at indentation indent: every argument on its
      own line, each but the last followed by ",", the last by end. */
  function IndentedListLines(args: seq<string>, end: string, indent: nat): (r: seq<Line>)
    requires |args| > 0
  {
    seq(|args| - 1, i requires 0 <= i < |args| - 1 => Line(indent, args[i] + ","))
      + [Line(indent, args[|args| - 1] + end)]
  }

  /** indented_list yields one line per argument; all but the last end in
      ",", the last ends in end, all four spaces in. */
  lemma IndentedListShape(args: seq<string>, end: string, indent: nat)
    requires |args| > 0
    ensures |IndentedListLines(args, end, indent)| == |args|
    ensures forall i :: 0 <= i < |args| ==> IndentedListLines(args, end, indent)[i].indent == indent
    ensures forall i :: 0 <= i < |args| - 1 ==> IndentedListLines(args, end, indent)[i].text == args[i] + ","
    ensures IndentedListLines(args, end, indent)[|args| - 1].text == args[|args| - 1] + end
  {
  }

  /** The decimal numeral of n. */
  function Decimal(n: nat): (s: string)
    ensures |s| >= 1
  {
    if n < 10 then ["0123456789"[n]] else Decimal(n / 10) + ["0123456789"[n % 10]]
  }

  /** A method as the generator sees it. */
  datatype ProtoMethod = ProtoMethod(name: string, mtype: MethodType)
  datatype ProtoService = ProtoService(name: string, protoPath: string, methods: seq<ProtoMethod>)

  function LookupTableHeader(methodCount: nat): string
  {
    "static constexpr std::array<uint32_t, " + Decimal(methodCount) + "> kPwRpcMethodIds = {"
  }

  function LookupTableEntry(m: ProtoMethod, calculate: string -> u32): string
  {
    GetId(MethodItem(m.name), calculate) + ",  // Hash of \"" + m.name + "\""
  }

  /** The lines of _method_lookup_table at indentation indent: a header, one
      id per method in method order four spaces in, and the closing "};". */
  function LookupTableLines(service: ProtoService, calculate: string -> u32, indent: nat): seq<Line>
  {
    [Line(indent, LookupTableHeader(|service.methods|))]
      + LookupTableEntries(service.methods, calculate, indent + 4)
      + [Line(indent, "};")]
  }

  /** One id line per method, in method order. */
  function LookupTableEntries(methods: seq<ProtoMethod>, calculate: string -> u32, indent: nat): seq<Line>
  {
    seq(|methods|, i requires 0 <= i < |methods| => Line(indent, LookupTableEntry(methods[i], calculate)))
  }

  /** Appending three pieces one after another appends them together. */
  lemma AppendInOrder<T>(before: seq<T>, a: seq<T>, b: seq<T>, c: seq<T>)
    ensures before + a + b + c == before + (a + b + c)
  {
  }

  /** Writing the header, then the entries, then the closing line appends
      the whole table. */
  lemma TableAppended(before: seq<Line>, afterHeader: seq<Line>, afterEntries: seq<Line>, after: seq<Line>,
                      service: ProtoService, calculate: string -> u32, indent: nat)
    requires afterHeader == before + [Line(indent, LookupTableHeader(|service.methods|))]
    requires afterEntries == afterHeader + LookupTableEntries(service.methods, calculate, indent + 4)
    requires after == afterEntries + [Line(indent, "};")]
    ensures after == before + LookupTableLines(service, calculate, indent)
  {
    AppendInOrder(before, [Line(indent, LookupTableHeader(|service.methods|))],
                  LookupTableEntries(service.methods, calculate, indent + 4), [Line(indent, "};")]);
    LookupTableParts(service, calculate, indent);
  }

  /** The table is its header, its entries and its closing line. */
  lemma LookupTableParts(service: ProtoService, calculate: string -> u32, indent: nat)
    ensures LookupTableLines(service, calculate, indent)
         == [Line(indent, LookupTableHeader(|service.methods|))]
          + LookupTableEntries(service.methods, calculate, indent + 4)
          + [Line(indent, "};")]
  {
  }

  /** The table has a line per method between header and "};", and the id on
      the line of method i is the hash of method i's name. */
  lemma LookupTableShape(service: ProtoService, calculate: string -> u32, indent: nat)
    ensures var lines := LookupTableLines(service, calculate, indent);
      && |lines| == |service.methods| + 2
      && lines[0] == Line(indent, LookupTableHeader(|service.methods|))
      && lines[|lines| - 1] == Line(indent, "};")
  {
  }

  lemma LookupTableIds(service: ProtoService, calculate: string -> u32, indent: nat, i: nat)
    requires i < |service.methods|
    ensures var line := LookupTableLines(service, calculate, indent)[i + 1];
      && line.indent == indent + 4
      && |line.text| >= 10 && line.text[..2] == "0x" && IsLowerHex(line.text[2..10])
      && ParseHex(line.text[2..10]) == calculate(service.methods[i].name)
  {
    var lines := LookupTableLines(service, calculate, indent);
    var id := GetId(MethodItem(service.methods[i].name), calculate);
    assert lines[i + 1].text == LookupTableEntry(service.methods[i], calculate);
    assert lines[i + 1].text[2..10] == id[2..];
  }

  /** The generator's view of its output file. */
  class CodeGenerator {
    const output: OutputFile

    /** A generator writes to an output file of its own, new and empty. */
    constructor (outputFilename: string)
      ensures fresh(output) && output.filename == outputFilename
      ensures output.lines == [] && output.indentation == 0
    {
      output := new OutputFile(outputFilename);
    }

    /** indented_list: writes IndentedListLines four spaces deeper than the
        current indentation and restores it. With no arguments it raises
        IndexError having written nothing. */
    method IndentedList(args: seq<string>, end: string) returns (r: Outcome)
      modifies output
      ensures output.indentation == old(output.indentation)
      ensures |args| == 0 ==> r == Fail(IndexError) && output.lines == old(output.lines)
      ensures |args| > 0 ==>
        r == Pass &&
        output.lines == old(output.lines) + IndentedListLines(args, end, old(output.indentation) + 4)
    {
      output.Indent(4);
      if |args| == 0 {
        output.Dedent(4);
        return Fail(IndexError);
      }
      var i := 0;
      while i < |args| - 1
        invariant 0 <= i <= |args| - 1
        invariant output.indentation == old(output.indentation) + 4
        invariant output.lines == old(output.lines)
          + seq(i, k requires 0 <= k < i => Line(old(output.indentation) + 4, args[k] + ","))
      {
        output.WriteLine(args[i] + ",");
        i := i + 1;
      }
      output.WriteLine(args[|args| - 1] + end);
      output.Dedent(4);
      return Pass;
    }

    /** _method_lookup_table: writes LookupTableLines at the current
        indentation. */
    method MethodLookupTable(service: ProtoService, calculate: string -> u32)
      modifies output
      ensures output.indentation == old(output.indentation)
      ensures output.lines == old(output.lines) + LookupTableLines(service, calculate, old(output.indentation))
    {
      ghost var before := output.lines;
      output.WriteLine(LookupTableHeader(|service.methods|));
      ghost var afterHeader := output.lines;
      WriteLookupTableEntries(service.methods, calculate);
      ghost var afterEntries := output.lines;
      output.WriteLine("};");
      TableAppended(before, afterHeader, afterEntries, output.lines, service, calculate, output.indentation);
    }

    /** The indented block of _method_lookup_table: one id line per method,
        in order, four spaces deeper than the table. */
    method WriteLookupTableEntries(methods: seq<ProtoMethod>, calculate: string -> u32)
      modifies output
      ensures output.indentation == old(output.indentation)
      ensures output.lines
           == old(output.lines) + LookupTableEntries(methods, calculate, old(output.indentation) + 4)
    {
      output.Indent(4);
      ghost var entries := LookupTableEntries(methods, calculate, output.indentation);
      var i := 0;
      while i < |methods|
        invariant 0 <= i <= |methods|
        invariant output.indentation == old(output.indentation) + 4
        invariant output.lines == old(output.lines) + entries[..i]
      {
        output.WriteLine(LookupTableEntry(methods[i], calculate));
        assert entries[..i + 1] == entries[..i] + [entries[i]];
        i := i + 1;
      }
      assert entries[..i] == entries;
      output.Dedent(4);
    }
  }
}
