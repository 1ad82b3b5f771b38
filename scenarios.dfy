/** Concrete operations that show where the filter and the response selection part ways. */
module EndpointScenarios {
  import opened Wrappers
  import opened JavaStrings
  import opened OpenApiModel
  import opened CodeModel
  import opened EndpointGeneration

  const Zip := "application/zip"

  /** An operation with a summary, no parameters and the given responses. */
  function Op(responses: seq<ResponseEntry>): Operation {
    Operation("get", "/orgs/{org}/members", Some("List organization members"), None, [], Some(responses), Some(Github(Some("orgs"), None)))
  }

  function Entry(status: string, content: map<string, Content>): ResponseEntry {
    ResponseEntry(status, Response(status, content))
  }

  /** "200" is chosen over "201", wherever each sits in the map. */
  lemma ChoosesLowest2xx(ok: Content, created: Content, missing: Content)
    ensures Get2xxJsonResponse(Op([Entry("201", map[ApplicationJson := created]), Entry("404", map[ApplicationJson := missing]), Entry("200", map[ApplicationJson := ok])])) == Ok(ok)
  {
    var entries := [Entry("201", map[ApplicationJson := created]), Entry("404", map[ApplicationJson := missing]), Entry("200", map[ApplicationJson := ok])];
    assert NameAt(entries, 1)[..1][0] == '4';
    assert CompareTo("201", "200") == 1;
    assert FirstMin2xx(entries[..1]) == Some(0);
    assert FirstMin2xx(entries[..2]) == Some(0);
  }

  /** JSON on an error response is enough for the filter, but not for response selection. */
  lemma JsonOnErrorResponseOnly(archive: Content, error: Content)
    ensures IsSupported(Op([Entry("201", map[Zip := archive]), Entry("404", map[ApplicationJson := error])]))
    ensures Get2xxJsonResponse(Op([Entry("201", map[Zip := archive]), Entry("404", map[ApplicationJson := error])])) == Err(NoJsonContent)
  {
    var entries := [Entry("201", map[Zip := archive]), Entry("404", map[ApplicationJson := error])];
    assert Is2xx(entries[0].status);
    assert ApplicationJson in entries[1].response.content;
    assert NameAt(entries, 1)[..1][0] == '4';
    assert FirstMin2xx(entries[..1]) == Some(0);
    assert Zip != ApplicationJson;
  }

  /** Only the lowest 2xx response is inspected: JSON on "201" does not rescue a bare "200". */
  lemma OnlyLowest2xxInspected(created: Content)
    ensures IsSupported(Op([Entry("200", map[]), Entry("201", map[ApplicationJson := created])]))
    ensures Get2xxJsonResponse(Op([Entry("200", map[]), Entry("201", map[ApplicationJson := created])])) == Err(NoJsonContent)
  {
    var entries := [Entry("200", map[]), Entry("201", map[ApplicationJson := created])];
    assert Is2xx(entries[0].status);
    assert ApplicationJson in entries[1].response.content;
    assert CompareTo("200", "201") == -1;
    assert FirstMin2xx(entries[..1]) == Some(0);
  }

  /** A 204-only operation passes the filter, yet building its method fails, and with it the run. */
  lemma NoContentOnlyAbortsBuild(collab: Collaborators)
    ensures IsSupported(Op([Entry("204", map[])]))
    ensures Get2xxJsonResponse(Op([Entry("204", map[])])) == Err(NoJsonContent)
    ensures Assemble(ModelPackage, [Op([Entry("204", map[])])], collab) == Err(NoJsonContent)
  {
    var entries := [Entry("204", map[])];
    assert entries[0].status == "204" && Is2xx(entries[0].status);
    assert FirstMin2xx(entries) == Some(0);
    var op := Op(entries);
    assert [op][..0] == [];
    assert RequestFields(ModelPackage + "." + collab.typeName(op.summary.value), [], collab.getField) == Ok([]);
  }

  /** An operation whose only 2xx response is a zip archive is dropped without error. */
  lemma ZipOnlyIsFiltered(archive: Content, collab: Collaborators)
    ensures !IsSupported(Op([Entry("200", map[Zip := archive])]))
    ensures Assemble(ModelPackage, [Op([Entry("200", map[Zip := archive])])], collab) == Ok([])
  {
    var entries := [Entry("200", map[Zip := archive])];
    assert Zip != ApplicationJson && entries[0].status != "204";
    assert [Op(entries)][..0] == [];
  }

  /** JSON on "200" next to a "204": supported, and the response class comes from the JSON schema. */
  lemma JsonBesideNoContent(ok: Content)
    ensures IsSupported(Op([Entry("204", map[]), Entry("200", map[ApplicationJson := ok])]))
    ensures Get2xxJsonResponse(Op([Entry("204", map[]), Entry("200", map[ApplicationJson := ok])])) == Ok(ok)
  {
    var entries := [Entry("204", map[]), Entry("200", map[ApplicationJson := ok])];
    assert entries[0].status == "204" && Is2xx(entries[0].status);
    assert CompareTo("204", "200") == 4;
    assert FirstMin2xx(entries[..1]) == Some(0);
  }
}
