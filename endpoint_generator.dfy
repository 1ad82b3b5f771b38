/**
 * The endpoint generator: which operations it supports, which response it
 * builds the response class from, how it builds a request class from the
 * parameters, and how it groups the generated methods into endpoints.
 */
module EndpointGeneration {
  import opened Wrappers
  import opened JavaStrings
  import opened OpenApiModel
  import opened CodeModel

  const ModelPackage := "org.tomitribe.github.model"
  const EndpointPackage := "org.tomitribe.github.client"
  const ApplicationJson := "application/json"

  /** The exceptions that abort a generation run. */
  datatype Error =
    | NoResponses                          // IllegalStateException "Method has no responses"
    | No2xxResponses                       // IllegalStateException "No 200 range responses found"
    | NoJsonContent                        // IllegalStateException "Expected 'application/json' content"
    | NoSchema                             // IllegalStateException "No schema found for parameter"
    | UnrecognizedLocation(value: string)  // IllegalArgumentException from Field.In.valueOf
    | NullCategory                         // NullPointerException from groupingBy on a null key

  /** What the component index is built from. */
  datatype ComponentIndex = ComponentIndex(api: OpenApi)

  /** The collaborators whose code is not part of this model. */
  datatype Collaborators = Collaborators(
    typeName: string -> string,                               // Words.getTypeName
    variableName: string -> string,                           // Words.getVariableName
    getField: (string, Option<string>, Schema) -> Field,      // ModelGenerator.getField(class, name, schema)
    buildModel: Schema -> Clazz,                              // ModelGenerator.build
    resolve: (seq<Clazz>, ComponentIndex, seq<Endpoint>) -> seq<Clazz>) // ResolveReferences.resolve

  // ---------------------------------------------------------------------
  // Support filter
  // ---------------------------------------------------------------------

  predicate Is2xx(status: string) {
    StartsWith(status, "2")
  }

  /** Some status key is exactly "204". */
  predicate ReturnsVoid(entries: seq<ResponseEntry>) {
    exists i :: 0 <= i < |entries| && entries[i].status == "204"
  }

  /** Some response, of any status, has an "application/json" content key. */
  predicate ReturnsApplicationJson(entries: seq<ResponseEntry>) {
    exists i :: 0 <= i < |entries| && ApplicationJson in entries[i].response.content
  }

  predicate Has2xxStatus(entries: seq<ResponseEntry>) {
    exists i :: 0 <= i < |entries| && Is2xx(entries[i].status)
  }

  function IsSupported(op: Operation): (supported: bool)
    ensures op.summary.None? ==> !supported
    ensures op.responses.None? ==> !supported
    ensures supported <==>
      && op.summary.Some?
      && op.responses.Some?
      && (exists i :: 0 <= i < |op.responses.value| && Is2xx(op.responses.value[i].status))
      && ((exists i :: 0 <= i < |op.responses.value| && op.responses.value[i].status == "204")
          || (exists i :: 0 <= i < |op.responses.value| && ApplicationJson in op.responses.value[i].response.content))
  {
    if op.summary.None? then false
    else if op.responses.None? then false
    else if !Has2xxStatus(op.responses.value) then false
    else if !ReturnsVoid(op.responses.value) && !ReturnsApplicationJson(op.responses.value) then false
    else true
  }

  // ---------------------------------------------------------------------
  // Success-response selection
  // ---------------------------------------------------------------------

  function NameAt(entries: seq<ResponseEntry>, k: nat): string
    requires k < |entries|
  {
    entries[k].response.name
  }

  /**
   * Entry k is the one `min(Comparator.comparing(Response::getName))` yields
   * over the responses whose name starts with "2": its name is no greater
   * than any other such name, and it is the first with that name.
   */
  ghost predicate IsChosen(entries: seq<ResponseEntry>, k: nat) {
    && k < |entries|
    && Is2xx(NameAt(entries, k))
    && (forall j :: 0 <= j < |entries| && Is2xx(NameAt(entries, j)) ==> LexLe(NameAt(entries, k), NameAt(entries, j)))
    && (forall j :: 0 <= j < k && Is2xx(NameAt(entries, j)) ==> NameAt(entries, j) != NameAt(entries, k))
  }

  /** The left-to-right reduction `Stream.min` performs, as an index. */
  function FirstMin2xx(entries: seq<ResponseEntry>): Option<nat>
    decreases |entries|
  {
    if entries == [] then None
    else
      var n := |entries| - 1;
      var best := FirstMin2xx(entries[..n]);
      if !Is2xx(NameAt(entries, n)) then best
      else if best.Some? && best.value < n && LexLe(NameAt(entries, best.value), NameAt(entries, n)) then best
      else Some(n)
  }

  /** A chosen entry stays chosen when a later entry does not beat it. */
  lemma ChosenExtends(entries: seq<ResponseEntry>, k: nat)
    requires entries != []
    requires IsChosen(entries[..|entries| - 1], k)
    requires !Is2xx(NameAt(entries, |entries| - 1)) || LexLe(NameAt(entries, k), NameAt(entries, |entries| - 1))
    ensures IsChosen(entries, k)
  {
    var n := |entries| - 1;
    assert forall j :: 0 <= j < n ==> NameAt(entries[..n], j) == NameAt(entries, j);
  }

  /** The last entry is chosen when it is no greater than, and differs from, every earlier 2xx name. */
  lemma LastChosen(entries: seq<ResponseEntry>)
    requires entries != []
    requires Is2xx(NameAt(entries, |entries| - 1))
    requires forall j :: 0 <= j < |entries| - 1 && Is2xx(NameAt(entries, j)) ==>
      LexLe(NameAt(entries, |entries| - 1), NameAt(entries, j)) && NameAt(entries, j) != NameAt(entries, |entries| - 1)
    ensures IsChosen(entries, |entries| - 1)
  {
    var last := NameAt(entries, |entries| - 1);
    CompareToZero(last, last);
  }

  lemma {:induction false} FirstMin2xxIsChosen(entries: seq<ResponseEntry>)
    ensures FirstMin2xx(entries).None? <==> forall j :: 0 <= j < |entries| ==> !Is2xx(NameAt(entries, j))
    ensures FirstMin2xx(entries).Some? ==> IsChosen(entries, FirstMin2xx(entries).value)
    decreases |entries|
  {
    if entries != [] {
      var n := |entries| - 1;
      var init := entries[..n];
      FirstMin2xxIsChosen(init);
      assert forall j :: 0 <= j < n ==> NameAt(init, j) == NameAt(entries, j);
      var best := FirstMin2xx(init);
      var last := NameAt(entries, n);
      if best.Some? {
        var k := best.value;
        var bk := NameAt(entries, k);
        if !Is2xx(last) || LexLe(bk, last) {
          ChosenExtends(entries, k);
        } else {
          LexLeTotal(bk, last);
          forall j | 0 <= j < n && Is2xx(NameAt(entries, j))
            ensures LexLe(last, NameAt(entries, j)) && NameAt(entries, j) != last
          {
            LexLeTransitive(last, bk, NameAt(entries, j));
          }
          LastChosen(entries);
        }
      } else if Is2xx(last) {
        LastChosen(entries);
      }
    }
  }

  /** At most one entry is the chosen one. */
  lemma ChosenIsUnique(entries: seq<ResponseEntry>, k1: nat, k2: nat)
    requires IsChosen(entries, k1) && IsChosen(entries, k2)
    ensures k1 == k2
  {
    if k1 != k2 {
      LexLeAntisymmetric(NameAt(entries, k1), NameAt(entries, k2));
    }
  }

  function Get2xxJsonResponse(op: Operation): (r: Result<Content, Error>)
    ensures op.responses.None? ==> r == Err(NoResponses)
    ensures op.responses.Some? ==>
      (r == Err(No2xxResponses) <==> forall j :: 0 <= j < |op.responses.value| ==> !Is2xx(NameAt(op.responses.value, j)))
    ensures r.Ok? ==>
      exists k: nat :: IsChosen(op.responses.value, k)
        && ApplicationJson in op.responses.value[k].response.content
        && r.value == op.responses.value[k].response.content[ApplicationJson]
    ensures r == Err(NoJsonContent) ==>
      exists k: nat :: IsChosen(op.responses.value, k) && ApplicationJson !in op.responses.value[k].response.content
    ensures r.Ok? || r == Err(NoResponses) || r == Err(No2xxResponses) || r == Err(NoJsonContent)
  {
    if op.responses.None? then Err(NoResponses)
    else
      var entries := op.responses.value;
      FirstMin2xxIsChosen(entries);
      match FirstMin2xx(entries)
      case None => Err(No2xxResponses)
      case Some(k) =>
        var content := entries[k].response.content;
        if ApplicationJson in content then Ok(content[ApplicationJson]) else Err(NoJsonContent)
  }

  /** Every response's name equals its status key, as in a deserialized document. */
  ghost predicate StatusNamed(op: Operation) {
    op.responses.Some? &&
    forall i :: 0 <= i < |op.responses.value| ==> op.responses.value[i].response.name == op.responses.value[i].status
  }

  /**
   * A supported operation always has a 2xx response to choose, so the only
   * way selection can still fail is that the chosen one has no JSON.
   */
  lemma SupportedFindsSuccessResponse(op: Operation)
    requires IsSupported(op) && StatusNamed(op)
    ensures Get2xxJsonResponse(op).Ok? || Get2xxJsonResponse(op) == Err(NoJsonContent)
  {
    var entries := op.responses.value;
    var i :| 0 <= i < |entries| && Is2xx(entries[i].status);
    assert Is2xx(NameAt(entries, i));
  }

  /** Whenever selection succeeds on an operation with a summary, the filter admits it. */
  lemma SelectedImpliesSupported(op: Operation)
    requires op.summary.Some? && StatusNamed(op)
    ensures Get2xxJsonResponse(op).Ok? ==> IsSupported(op)
  {
    if Get2xxJsonResponse(op).Ok? {
      var entries := op.responses.value;
      FirstMin2xxIsChosen(entries);
      var k := FirstMin2xx(entries).value;
      assert Is2xx(entries[k].status);
      assert ApplicationJson in entries[k].response.content;
    }
  }

  // ---------------------------------------------------------------------
  // Request class
  // ---------------------------------------------------------------------

  function GetSchema(p: Parameter): (r: Result<Schema, Error>)
    ensures p.schema.Some? ==> r == Ok(p.schema.value)
    ensures p.schema.None? && p.ref.Some? ==>
      r.Ok? && r.value.ref == p.ref && r.value.name.None? && r.value.schemaType.None?
    ensures r.Err? <==> p.schema.None? && p.ref.None?
    ensures r.Err? ==> r.error == NoSchema
  {
    if p.schema.Some? then Ok(p.schema.value)
    else if p.ref.Some? then Ok(BlankSchema.(ref := p.ref))
    else Err(NoSchema)
  }

  /** The name `Field.In` declares for each constant. */
  function LocationName(l: Location): string {
    match l
    case Path => "PATH"
    case Query => "QUERY"
    case Header => "HEADER"
    case Body => "BODY"
    case Cookie => "COOKIE"
  }

  /** `Field.In.valueOf(name)`, with `None` for the IllegalArgumentException. */
  function LocationValueOf(name: string): (l: Option<Location>)
    ensures l.Some? ==> LocationName(l.value) == name
    ensures l.None? ==> forall k: Location :: LocationName(k) != name
  {
    if name == "PATH" then Some(Path)
    else if name == "QUERY" then Some(Query)
    else if name == "HEADER" then Some(Header)
    else if name == "BODY" then Some(Body)
    else if name == "COOKIE" then Some(Cookie)
    else None
  }

  /** `Field.In.valueOf(in.toUpperCase())`. */
  function ParseIn(value: string): Option<Location> {
    LocationValueOf(ToUpperCase(value))
  }

  lemma ParseInMatchesUpperCase(value: string, l: Location)
    ensures ParseIn(value) == Some(l) <==> ToUpperCase(value) == LocationName(l)
  {
  }

  /** The lower-case names an OpenAPI document uses are all recognised. */
  lemma ParseInLowerCase()
    ensures ParseIn("path") == Some(Path)
    ensures ParseIn("query") == Some(Query)
    ensures ParseIn("header") == Some(Header)
    ensures ParseIn("body") == Some(Body)
    ensures ParseIn("cookie") == Some(Cookie)
    ensures ParseIn("formData").None?
  {
    assert ToUpperCase("path") == "PATH";
    assert ToUpperCase("query") == "QUERY";
    assert ToUpperCase("header") == "HEADER";
    assert ToUpperCase("body") == "BODY";
    assert ToUpperCase("cookie") == "COOKIE";
    assert ToUpperCase("formData") == "FORMDATA";
  }

  /** The field one parameter contributes (one iteration of the loop). */
  function FieldFor(className: string, p: Parameter, getField: (string, Option<string>, Schema) -> Field): Result<Field, Error>
  {
    var schema :- GetSchema(p);
    var name := if p.name.Some? then p.name else schema.name;
    var field := getField(className, name, schema);
    if p.location.None? then Ok(field)
    else match ParseIn(p.location.value)
      case None => Err(UnrecognizedLocation(ToUpperCase(p.location.value)))
      case Some(l) => Ok(field.(location := Some(l)))
  }

  /** The fields of the request class, one parameter after the other. */
  function RequestFields(className: string, params: seq<Parameter>, getField: (string, Option<string>, Schema) -> Field): Result<seq<Field>, Error>
    decreases |params|
  {
    if params == [] then Ok([])
    else
      var fields :- RequestFields(className, params[..|params| - 1], getField);
      var field :- FieldFor(className, params[|params| - 1], getField);
      Ok(fields + [field])
  }

  function RequestClass(modelPackage: string, requestClassName: string, params: seq<Parameter>, getField: (string, Option<string>, Schema) -> Field): Result<Clazz, Error>
  {
    var name := modelPackage + "." + requestClassName;
    var fields :- RequestFields(name, params, getField);
    Ok(Clazz(name, fields))
  }

  /** Once a prefix of the parameters fails, the whole list fails the same way. */
  lemma {:induction false} RequestFieldsPrefixFails(className: string, params: seq<Parameter>, getField: (string, Option<string>, Schema) -> Field, i: nat)
    requires i <= |params|
    requires RequestFields(className, params[..i], getField).Err?
    ensures RequestFields(className, params, getField) == RequestFields(className, params[..i], getField)
    decreases |params| - i
  {
    if i < |params| {
      var prefix := params[..i + 1];
      assert prefix[..i] == params[..i];
      RequestFieldsPrefixFails(className, params, getField, i + 1);
    } else {
      assert params[..i] == params;
    }
  }

  /** The fields are built exactly when every parameter yields one... */
  lemma {:induction false} RequestFieldsOkIff(className: string, params: seq<Parameter>, getField: (string, Option<string>, Schema) -> Field)
    ensures RequestFields(className, params, getField).Ok? <==>
      forall i :: 0 <= i < |params| ==> FieldFor(className, params[i], getField).Ok?
    decreases |params|
  {
    if params != [] {
      var n := |params| - 1;
      var init := params[..n];
      RequestFieldsOkIff(className, init, getField);
      assert forall i :: 0 <= i < n ==> init[i] == params[i];
      assert RequestFields(className, params, getField).Ok? <==>
        RequestFields(className, init, getField).Ok? && FieldFor(className, params[n], getField).Ok?;
    }
  }

  /** ...and then there is one field per parameter, in parameter order. */
  lemma {:induction false} RequestFieldsPerParameter(className: string, params: seq<Parameter>, getField: (string, Option<string>, Schema) -> Field)
    requires RequestFields(className, params, getField).Ok?
    ensures
      var fields := RequestFields(className, params, getField).value;
      |fields| == |params| && forall i :: 0 <= i < |params| ==> FieldFor(className, params[i], getField) == Ok(fields[i])
    decreases |params|
  {
    if params != [] {
      var n := |params| - 1;
      var init := params[..n];
      assert RequestFields(className, init, getField).Ok?;
      RequestFieldsPerParameter(className, init, getField);
      var fields := RequestFields(className, init, getField).value;
      var field := FieldFor(className, params[n], getField).value;
      var all := RequestFields(className, params, getField).value;
      assert all == fields + [field];
      forall i | 0 <= i < |params|
        ensures FieldFor(className, params[i], getField) == Ok(all[i])
      {
        if i < n {
          assert init[i] == params[i] && all[i] == fields[i];
        } else {
          assert all[i] == field;
        }
      }
    }
  }

  /** The error reported is that of the first parameter that fails. */
  lemma {:induction false} RequestFieldsFirstError(className: string, params: seq<Parameter>, getField: (string, Option<string>, Schema) -> Field)
    requires RequestFields(className, params, getField).Err?
    ensures exists k :: (0 <= k < |params|
      && FieldFor(className, params[k], getField) == Err(RequestFields(className, params, getField).error)
      && forall j :: 0 <= j < k ==> FieldFor(className, params[j], getField).Ok?)
    decreases |params|
  {
    var n := |params| - 1;
    var init := params[..n];
    assert forall i :: 0 <= i < n ==> init[i] == params[i];
    if RequestFields(className, init, getField).Err? {
      RequestFieldsFirstError(className, init, getField);
    } else {
      RequestFieldsPerParameter(className, init, getField);
      assert FieldFor(className, params[n], getField) == Err(RequestFields(className, params, getField).error);
    }
  }

  /**
   * Field i of a request class: what `getField` makes of parameter i under
   * its own name or, failing that, its schema's name, with the location
   * replaced by the upper-cased `in` when there is one.
   */
  lemma RequestFieldAt(className: string, params: seq<Parameter>, getField: (string, Option<string>, Schema) -> Field, i: nat)
    requires RequestFields(className, params, getField).Ok?
    requires i < |params|
    ensures GetSchema(params[i]).Ok?
    ensures params[i].location.Some? ==> ParseIn(params[i].location.value).Some?
    ensures
      var fields := RequestFields(className, params, getField).value;
      var schema := GetSchema(params[i]).value;
      var name := if params[i].name.Some? then params[i].name else schema.name;
      var made := getField(className, name, schema);
      i < |fields| &&
      fields[i] == made.(location := if params[i].location.Some? then ParseIn(params[i].location.value) else made.location)
  {
    RequestFieldsPerParameter(className, params, getField);
  }

  /** With a `getField` that names the field as asked, the name falls back from parameter to schema. */
  lemma RequestFieldNames(className: string, params: seq<Parameter>, getField: (string, Option<string>, Schema) -> Field, i: nat)
    requires forall c, n, s :: getField(c, n, s).name == n
    requires RequestFields(className, params, getField).Ok?
    requires i < |params|
    ensures GetSchema(params[i]).Ok?
    ensures
      var fields := RequestFields(className, params, getField).value;
      i < |fields| &&
      fields[i].name == if params[i].name.Some? then params[i].name else GetSchema(params[i]).value.name
  {
    RequestFieldAt(className, params, getField, i);
  }

  /** `generateRequestClass`: the loop over the parameters, appending to the class builder. */
  method GenerateRequestClass(modelPackage: string, requestClassName: string, parameters: seq<Parameter>, getField: (string, Option<string>, Schema) -> Field)
    returns (r: Result<Clazz, Error>)
    ensures r == RequestClass(modelPackage, requestClassName, parameters, getField)
  {
    var name := modelPackage + "." + requestClassName;
    var fields: seq<Field> := [];
    for i := 0 to |parameters|
      invariant RequestFields(name, parameters[..i], getField) == Ok(fields)
    {
      var parameter := parameters[i];
      assert parameters[..i + 1][..i] == parameters[..i];
      var schema := GetSchema(parameter);
      if schema.Err? {
        RequestFieldsPrefixFails(name, parameters, getField, i + 1);
        return Err(schema.error);
      }
      var fieldName := if parameter.name.Some? then parameter.name else schema.value.name;
      var field := getField(name, fieldName, schema.value);
      if parameter.location.Some? {
        var location := ParseIn(parameter.location.value);
        if location.None? {
          RequestFieldsPrefixFails(name, parameters, getField, i + 1);
          return Err(UnrecognizedLocation(ToUpperCase(parameter.location.value)));
        }
        field := field.(location := location);
      }
      fields := fields + [field];
    }
    assert parameters[..|parameters|] == parameters;
    r := Ok(Clazz(name, fields));
  }

  // ---------------------------------------------------------------------
  // Endpoint methods
  // ---------------------------------------------------------------------

  /** `createMethod`: request class first, then the response class. */
  function CreateMethod(modelPackage: string, op: Operation, collab: Collaborators): (r: Result<EndpointMethod, Error>)
    requires op.summary.Some?
    ensures
      var request := RequestClass(modelPackage, collab.typeName(op.summary.value), op.parameters, collab.getField);
      && (request.Err? ==> r == Err(request.error))
      && (request.Ok? && Get2xxJsonResponse(op).Err? ==> r == Err(Get2xxJsonResponse(op).error))
      && (r.Ok? <==> request.Ok? && Get2xxJsonResponse(op).Ok?)
      && (r.Ok? ==>
            && r.value.request == request.value
            && r.value.response == collab.buildModel(Get2xxJsonResponse(op).value.schema)
            && r.value.javaMethod == collab.variableName(op.summary.value)
            && r.value.summary == op.summary.value
            && r.value.operationId == op.operationId
            && r.value.httpMethod == op.httpMethod && r.value.path == op.path
            && r.value.category == if op.github.Some? then op.github.value.category else None)
  {
    var summary := op.summary.value;
    var request :- RequestClass(modelPackage, collab.typeName(summary), op.parameters, collab.getField);
    var json :- Get2xxJsonResponse(op);
    Ok(EndpointMethod(
      op.httpMethod, op.path, collab.variableName(summary), request, collab.buildModel(json.schema),
      summary, op.operationId, if op.github.Some? then op.github.value.category else None))
  }

  predicate Categorized(methods: seq<EndpointMethod>) {
    forall i :: 0 <= i < |methods| ==> methods[i].category.Some?
  }

  /** The operations the filter admits, in input order. */
  function SupportedOperations(ops: seq<Operation>): (supported: seq<Operation>)
    ensures forall i :: 0 <= i < |supported| ==> IsSupported(supported[i])
    ensures forall op :: op in supported <==> op in ops && IsSupported(op)
    decreases |ops|
  {
    if ops == [] then []
    else
      var n := |ops| - 1;
      SupportedOperations(ops[..n]) + if IsSupported(ops[n]) then [ops[n]] else []
  }

  /** One supported operation's way into `groupingBy`: its method, which must carry a category. */
  function Classified(modelPackage: string, op: Operation, collab: Collaborators): Result<EndpointMethod, Error>
    requires op.summary.Some?
  {
    var m :- CreateMethod(modelPackage, op, collab);
    if m.category.None? then Err(NullCategory) else Ok(m)
  }

  /**
   * The stream `filter(isSupported).map(createMethod)` feeding `groupingBy`:
   * each operation in turn is filtered, turned into a method, and classified,
   * so the first failure in input order aborts the run.
   */
  function Assemble(modelPackage: string, ops: seq<Operation>, collab: Collaborators): (r: Result<seq<EndpointMethod>, Error>)
    ensures r.Ok? ==> Categorized(r.value)
    decreases |ops|
  {
    if ops == [] then Ok([])
    else
      var methods :- Assemble(modelPackage, ops[..|ops| - 1], collab);
      var op := ops[|ops| - 1];
      if !IsSupported(op) then Ok(methods)
      else
        var m :- Classified(modelPackage, op, collab);
        Ok(methods + [m])
  }

  /** The supported operations of a list with one more operation at its end. */
  lemma SupportedOperationsSnoc(ops: seq<Operation>)
    requires ops != []
    ensures
      var n := |ops| - 1;
      var s := SupportedOperations(ops[..n]);
      && SupportedOperations(ops) == s + (if IsSupported(ops[n]) then [ops[n]] else [])
      && forall i :: 0 <= i < |s| ==> SupportedOperations(ops)[i] == s[i]
  {
  }

  /** Assembly succeeds exactly when every supported operation makes a categorized method... */
  lemma {:induction false} AssembleOkIff(modelPackage: string, ops: seq<Operation>, collab: Collaborators)
    ensures Assemble(modelPackage, ops, collab).Ok? <==>
      forall i :: 0 <= i < |SupportedOperations(ops)| ==>
        Classified(modelPackage, SupportedOperations(ops)[i], collab).Ok?
    decreases |ops|
  {
    if ops != [] {
      var n := |ops| - 1;
      AssembleOkIff(modelPackage, ops[..n], collab);
      SupportedOperationsSnoc(ops);
    }
  }

  /** ...and then method i is the one made from supported operation i. */
  lemma {:induction false} AssembleIsMapOfSupported(modelPackage: string, ops: seq<Operation>, collab: Collaborators)
    requires Assemble(modelPackage, ops, collab).Ok?
    ensures
      var methods := Assemble(modelPackage, ops, collab).value;
      |methods| == |SupportedOperations(ops)| &&
      forall i :: 0 <= i < |methods| ==>
        CreateMethod(modelPackage, SupportedOperations(ops)[i], collab) == Ok(methods[i]) && methods[i].category.Some?
    decreases |ops|
  {
    if ops != [] {
      var n := |ops| - 1;
      assert Assemble(modelPackage, ops[..n], collab).Ok?;
      AssembleIsMapOfSupported(modelPackage, ops[..n], collab);
      SupportedOperationsSnoc(ops);
    }
  }

  /** After a successful assembly, every supported operation made a method with a category. */
  lemma {:induction false} AssembleClassifiesEach(modelPackage: string, ops: seq<Operation>, collab: Collaborators)
    requires Assemble(modelPackage, ops, collab).Ok?
    ensures forall j :: 0 <= j < |ops| && IsSupported(ops[j]) ==> Classified(modelPackage, ops[j], collab).Ok?
    decreases |ops|
  {
    if ops != [] {
      var n := |ops| - 1;
      var init := ops[..n];
      assert Assemble(modelPackage, init, collab).Ok?;
      AssembleClassifiesEach(modelPackage, init, collab);
      assert forall j :: 0 <= j < n ==> init[j] == ops[j];
    }
  }

  /**
   * A failed assembly reports the failure of the first supported operation,
   * in input order, that makes no method or a method without a category;
   * every supported operation before it succeeds.
   */
  lemma {:induction false} AssembleFirstError(modelPackage: string, ops: seq<Operation>, collab: Collaborators)
    requires Assemble(modelPackage, ops, collab).Err?
    ensures exists k :: (0 <= k < |ops| && IsSupported(ops[k])
      && Classified(modelPackage, ops[k], collab) == Err(Assemble(modelPackage, ops, collab).error)
      && forall j :: 0 <= j < k && IsSupported(ops[j]) ==> Classified(modelPackage, ops[j], collab).Ok?)
    decreases |ops|
  {
    var n := |ops| - 1;
    var init := ops[..n];
    assert forall j :: 0 <= j < n ==> init[j] == ops[j];
    if Assemble(modelPackage, init, collab).Err? {
      AssembleFirstError(modelPackage, init, collab);
    } else {
      AssembleClassifiesEach(modelPackage, init, collab);
      assert Classified(modelPackage, ops[n], collab) == Err(Assemble(modelPackage, ops, collab).error);
    }
  }

  // ---------------------------------------------------------------------
  // Grouping by category
  // ---------------------------------------------------------------------

  function CategoriesOf(methods: seq<EndpointMethod>): (cats: set<string>)
    requires Categorized(methods)
    ensures forall c :: c in cats <==> exists i :: 0 <= i < |methods| && methods[i].category == Some(c)
    decreases |methods|
  {
    if methods == [] then {}
    else
      var n := |methods| - 1;
      assert forall i :: 0 <= i < n ==> methods[..n][i] == methods[i];
      CategoriesOf(methods[..n]) + {methods[n].category.value}
  }

  /** The methods of one category, in encounter order. */
  function MethodsIn(methods: seq<EndpointMethod>, c: string): seq<EndpointMethod>
    decreases |methods|
  {
    if methods == [] then []
    else
      var n := |methods| - 1;
      MethodsIn(methods[..n], c) + if methods[n].category == Some(c) then [methods[n]] else []
  }

  lemma {:induction false} MethodsInMembers(methods: seq<EndpointMethod>, c: string)
    ensures forall m :: m in MethodsIn(methods, c) <==> m in methods && m.category == Some(c)
    decreases |methods|
  {
    if methods != [] {
      var n := |methods| - 1;
      MethodsInMembers(methods[..n], c);
      assert methods == methods[..n] + [methods[n]];
    }
  }

  lemma {:induction false} MethodsInEmpty(methods: seq<EndpointMethod>, c: string)
    requires Categorized(methods)
    ensures MethodsIn(methods, c) == [] <==> c !in CategoriesOf(methods)
  {
    MethodsInMembers(methods, c);
    if MethodsIn(methods, c) != [] {
      assert MethodsIn(methods, c)[0] in MethodsIn(methods, c);
    }
    if c in CategoriesOf(methods) {
      var i :| 0 <= i < |methods| && methods[i].category == Some(c);
      assert methods[i] in MethodsIn(methods, c);
    }
  }

  /** `Collectors.groupingBy(EndpointMethod::getCategory)`: append each method to its category's list. */
  function GroupingBy(methods: seq<EndpointMethod>): map<string, seq<EndpointMethod>>
    requires Categorized(methods)
    decreases |methods|
  {
    if methods == [] then map[]
    else
      var n := |methods| - 1;
      var groups := GroupingBy(methods[..n]);
      var c := methods[n].category.value;
      groups[c := (if c in groups then groups[c] else []) + [methods[n]]]
  }

  /** The grouping has one key per distinct category... */
  lemma {:induction false} GroupingByKeys(methods: seq<EndpointMethod>)
    requires Categorized(methods)
    ensures GroupingBy(methods).Keys == CategoriesOf(methods)
    decreases |methods|
  {
    if methods != [] {
      var n := |methods| - 1;
      var init := methods[..n];
      assert Categorized(init);
      GroupingByKeys(init);
    }
  }

  /** ...holding that category's methods in encounter order, and no key for a category without methods. */
  lemma {:induction false} GroupingByValues(methods: seq<EndpointMethod>)
    requires Categorized(methods)
    ensures forall c :: c in GroupingBy(methods) ==> GroupingBy(methods)[c] == MethodsIn(methods, c)
    ensures forall c :: c !in GroupingBy(methods) ==> MethodsIn(methods, c) == []
    decreases |methods|
  {
    if methods != [] {
      var n := |methods| - 1;
      var init := methods[..n];
      var last := methods[n];
      assert Categorized(init);
      GroupingByValues(init);
      forall d
        ensures MethodsIn(methods, d) == MethodsIn(init, d) + if last.category == Some(d) then [last] else []
      {
      }
    }
  }

  /** The grouping is the filter by category over the distinct categories. */
  lemma GroupingByIsFilter(methods: seq<EndpointMethod>)
    requires Categorized(methods)
    ensures GroupingBy(methods).Keys == CategoriesOf(methods)
    ensures forall c :: c in GroupingBy(methods) ==> GroupingBy(methods)[c] == MethodsIn(methods, c)
  {
    GroupingByKeys(methods);
    GroupingByValues(methods);
  }

  /**
   * The endpoints list one endpoint per key of the grouping, each category
   * exactly once; `order` is the (unspecified) order the map's entries were
   * visited in.
   */
  ghost predicate EndpointListing(endpoints: seq<Endpoint>, order: seq<string>, groups: map<string, seq<EndpointMethod>>, typeName: string -> string) {
    && |order| == |endpoints| == |groups.Keys|
    && (forall i :: 0 <= i < |order| ==>
          order[i] in groups && endpoints[i] == Endpoint(typeName(order[i] + "-client"), groups[order[i]]))
    && (forall i, j :: 0 <= i < j < |order| ==> order[i] != order[j])
    && (forall c :: c in groups ==> c in order)
  }

  /** The loop over `categories.entrySet()`, visiting the entries in an unspecified order. */
  method MakeEndpoints(groups: map<string, seq<EndpointMethod>>, typeName: string -> string)
    returns (endpoints: seq<Endpoint>, ghost order: seq<string>)
    ensures EndpointListing(endpoints, order, groups, typeName)
    ensures |endpoints| == |groups.Keys|
    ensures forall e :: e in endpoints ==> exists c :: c in groups && e == Endpoint(typeName(c + "-client"), groups[c])
    ensures forall c :: c in groups ==> Endpoint(typeName(c + "-client"), groups[c]) in endpoints
  {
    var remaining := groups.Keys;
    endpoints, order := [], [];
    while remaining != {}
      invariant remaining <= groups.Keys
      invariant |order| == |endpoints|
      invariant |remaining| + |order| == |groups.Keys|
      invariant forall i :: 0 <= i < |order| ==>
        order[i] in groups && order[i] !in remaining && endpoints[i] == Endpoint(typeName(order[i] + "-client"), groups[order[i]])
      invariant forall i, j :: 0 <= i < j < |order| ==> order[i] != order[j]
      invariant forall c :: c in groups && c !in remaining ==> c in order
      decreases |remaining|
    {
      var category :| category in remaining;
      endpoints := endpoints + [Endpoint(typeName(category + "-client"), groups[category])];
      order := order + [category];
      remaining := remaining - {category};
    }
    forall e | e in endpoints
      ensures exists c :: c in groups && e == Endpoint(typeName(c + "-client"), groups[c])
    {
      var i :| 0 <= i < |endpoints| && endpoints[i] == e;
      assert order[i] in groups;
    }
    forall c | c in groups
      ensures Endpoint(typeName(c + "-client"), groups[c]) in endpoints
    {
      var i :| 0 <= i < |order| && order[i] == c;
      assert endpoints[i] == Endpoint(typeName(c + "-client"), groups[c]);
    }
  }

  /**
   * What `build` returns, first part: one endpoint per distinct category,
   * holding that category's methods in encounter order, and never none.
   */
  lemma EndpointsFollowCategories(methods: seq<EndpointMethod>, endpoints: seq<Endpoint>, order: seq<string>, typeName: string -> string)
    requires Categorized(methods)
    requires EndpointListing(endpoints, order, GroupingBy(methods), typeName)
    ensures |endpoints| == |CategoriesOf(methods)|
    ensures forall i :: 0 <= i < |endpoints| ==>
      && endpoints[i].className == typeName(order[i] + "-client")
      && endpoints[i].methods == MethodsIn(methods, order[i])
      && endpoints[i].methods != []
  {
    GroupingByIsFilter(methods);
    forall i | 0 <= i < |endpoints|
      ensures endpoints[i].methods == MethodsIn(methods, order[i]) && endpoints[i].methods != []
    {
      MethodsInEmpty(methods, order[i]);
    }
  }

  /** Second part: the methods of an endpoint all come from the input and share its category. */
  lemma EndpointMethodsShareCategory(methods: seq<EndpointMethod>, endpoints: seq<Endpoint>, order: seq<string>, typeName: string -> string)
    requires Categorized(methods)
    requires EndpointListing(endpoints, order, GroupingBy(methods), typeName)
    ensures forall i, m :: 0 <= i < |endpoints| && m in endpoints[i].methods ==> m in methods && m.category == Some(order[i])
  {
    forall i, m | 0 <= i < |endpoints| && m in endpoints[i].methods
      ensures m in methods && m.category == Some(order[i])
    {
      var c := order[i];
      assert endpoints[i].methods == MethodsIn(methods, c) by {
        GroupingByIsFilter(methods);
      }
      MethodsInMembers(methods, c);
    }
  }

  /** Third part: every method appears in some endpoint... */
  lemma EachMethodInSomeEndpoint(methods: seq<EndpointMethod>, endpoints: seq<Endpoint>, order: seq<string>, typeName: string -> string)
    requires Categorized(methods)
    requires EndpointListing(endpoints, order, GroupingBy(methods), typeName)
    ensures forall m :: m in methods ==> exists i :: 0 <= i < |endpoints| && m in endpoints[i].methods
  {
    forall m | m in methods ensures exists i :: 0 <= i < |endpoints| && m in endpoints[i].methods {
      var k :| 0 <= k < |methods| && methods[k] == m;
      var c := m.category.value;
      assert c in GroupingBy(methods) && GroupingBy(methods)[c] == MethodsIn(methods, c) by {
        GroupingByIsFilter(methods);
        assert c in CategoriesOf(methods);
      }
      var i :| 0 <= i < |order| && order[i] == c;
      MethodsInMembers(methods, c);
      assert m in endpoints[i].methods;
    }
  }

  /** ...and in no more than one. */
  lemma EachMethodInOneEndpoint(methods: seq<EndpointMethod>, endpoints: seq<Endpoint>, order: seq<string>, typeName: string -> string)
    requires Categorized(methods)
    requires EndpointListing(endpoints, order, GroupingBy(methods), typeName)
    ensures forall m, i, j :: 0 <= i < |endpoints| && 0 <= j < |endpoints| && m in endpoints[i].methods && m in endpoints[j].methods ==> i == j
  {
    forall m, i, j | 0 <= i < |endpoints| && 0 <= j < |endpoints| && m in endpoints[i].methods && m in endpoints[j].methods
      ensures i == j
    {
      EndpointMethodsShareCategory(methods, endpoints, order, typeName);
      assert m.category == Some(order[i]) && m.category == Some(order[j]);
    }
  }

  // ---------------------------------------------------------------------
  // Pruning the class list
  // ---------------------------------------------------------------------

  /** `classes.removeIf(clazz -> clazz instanceof ClazzReference)` */
  function WithoutReferences(classes: seq<Clazz>): (kept: seq<Clazz>)
    ensures |kept| <= |classes|
    decreases |classes|
  {
    if classes == [] then []
    else
      var n := |classes| - 1;
      WithoutReferences(classes[..n]) + if classes[n].ClazzReference? then [] else [classes[n]]
  }

  /** No placeholder survives, and every other class does. */
  lemma {:induction false} WithoutReferencesMembers(classes: seq<Clazz>)
    ensures forall c :: c in WithoutReferences(classes) <==> c in classes && !c.ClazzReference?
    decreases |classes|
  {
    if classes != [] {
      var n := |classes| - 1;
      WithoutReferencesMembers(classes[..n]);
      assert classes == classes[..n] + [classes[n]];
    }
  }

  /** Removal works piecewise, so the classes kept stay in their original order. */
  lemma {:induction false} WithoutReferencesAppend(a: seq<Clazz>, b: seq<Clazz>)
    ensures WithoutReferences(a + b) == WithoutReferences(a) + WithoutReferences(b)
    decreases |b|
  {
    if b == [] {
      assert a + b == a;
    } else {
      var n := |b| - 1;
      WithoutReferencesAppend(a, b[..n]);
      assert (a + b)[..|a + b| - 1] == a + b[..n];
      assert (a + b)[|a + b| - 1] == b[n];
    }
  }

  /** A list without references is left as it is. */
  lemma {:induction false} WithoutReferencesKeepsClasses(classes: seq<Clazz>)
    requires forall i :: 0 <= i < |classes| ==> !classes[i].ClazzReference?
    ensures WithoutReferences(classes) == classes
    decreases |classes|
  {
    if classes != [] {
      var n := |classes| - 1;
      WithoutReferencesKeepsClasses(classes[..n]);
      assert classes[..n] + [classes[n]] == classes;
    }
  }

  lemma WithoutReferencesIdempotent(classes: seq<Clazz>)
    ensures WithoutReferences(WithoutReferences(classes)) == WithoutReferences(classes)
  {
    var kept := WithoutReferences(classes);
    WithoutReferencesMembers(classes);
    assert forall i :: 0 <= i < |kept| ==> kept[i] in kept;
    WithoutReferencesKeepsClasses(kept);
  }

  // ---------------------------------------------------------------------
  // The generator
  // ---------------------------------------------------------------------

  class EndpointGenerator {
    const modelPackage: string
    const endpointPackage: string
    /** The component index of the document last built. */
    var componentIndex: Option<ComponentIndex>
    /** The class list the model generator holds (`modelGenerator.getClasses()`). */
    var classes: seq<Clazz>

    constructor ()
      ensures modelPackage == ModelPackage && endpointPackage == EndpointPackage
      ensures componentIndex == None && classes == []
    {
      modelPackage := ModelPackage;
      endpointPackage := EndpointPackage;
      componentIndex := None;
      classes := [];
    }

    /**
     * `build`: index the document, assemble and group the methods, make one
     * endpoint per category, resolve references, then drop the placeholders.
     */
    method Build(api: OpenApi, collab: Collaborators) returns (r: Result<seq<Endpoint>, Error>, ghost order: seq<string>)
      modifies this
      ensures componentIndex == Some(ComponentIndex(api))
      ensures Assemble(modelPackage, api.operations, collab).Err? ==>
        r == Err(Assemble(modelPackage, api.operations, collab).error) && classes == old(classes)
      ensures Assemble(modelPackage, api.operations, collab).Ok? ==>
        && r.Ok?
        && EndpointListing(r.value, order, GroupingBy(Assemble(modelPackage, api.operations, collab).value), collab.typeName)
        && classes == WithoutReferences(collab.resolve(old(classes), ComponentIndex(api), r.value))
    {
      componentIndex := Some(ComponentIndex(api));
      var assembled := Assemble(modelPackage, api.operations, collab);
      if assembled.Err? {
        r, order := Err(assembled.error), [];
        return;
      }
      var categories := GroupingBy(assembled.value);
      var endpoints;
      endpoints, order := MakeEndpoints(categories, collab.typeName);
      var resolved := collab.resolve(classes, ComponentIndex(api), endpoints);
      classes := WithoutReferences(resolved);
      r := Ok(endpoints);
    }
  }
}
