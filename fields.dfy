/** The `fields` lists sent to the API and the helper that turns a list into
    the comma-separated `fields` parameter (src/utils/fields.ts). */
module Fields {
  import opened Wrappers
  import opened JsText

  const DefaultPaperFields: seq<string> :=
    ["paperId", "title", "abstract", "year", "authors", "citationCount", "url", "openAccessPdf"]

  const DefaultAuthorFields: seq<string> :=
    ["authorId", "name", "affiliations", "paperCount", "citationCount", "hIndex"]

  const DefaultCitationFields: seq<string> :=
    ["paperId", "title", "year", "authors", "citationCount"]

  const AllPaperFields: seq<string> :=
    ["paperId", "corpusId", "externalIds", "url", "title", "abstract", "venue", "year",
     "referenceCount", "citationCount", "influentialCitationCount", "isOpenAccess",
     "openAccessPdf", "fieldsOfStudy", "s2FieldsOfStudy", "publicationTypes",
     "publicationDate", "journal", "authors"]

  const AllAuthorFields: seq<string> :=
    ["authorId", "externalIds", "url", "name", "affiliations", "homepage", "paperCount",
     "citationCount", "hIndex"]

  /** The list `buildFieldsParam` joins: the caller's when it is given and not
      empty, otherwise the defaults, which are DefaultPaperFields when omitted. */
  function ChosenFields(fields: Option<seq<string>>, defaultFields: Option<seq<string>>): (chosen: seq<string>)
    ensures fields.Some? && |fields.value| > 0 ==> chosen == fields.value
    ensures (fields.None? || fields.value == []) && defaultFields.Some? ==> chosen == defaultFields.value
    ensures (fields.None? || fields.value == []) && defaultFields.None? ==> chosen == DefaultPaperFields
  {
    var defaults := if defaultFields.Some? then defaultFields.value else DefaultPaperFields;
    if fields.Some? && |fields.value| > 0 then fields.value else defaults
  }

  /** `buildFieldsParam(fields, defaultFields)`. */
  function BuildFieldsParam(fields: Option<seq<string>>, defaultFields: Option<seq<string>>): (r: string)
    ensures |ChosenFields(fields, defaultFields)| == 1 ==> r == ChosenFields(fields, defaultFields)[0]
  {
    Join(ChosenFields(fields, defaultFields))
  }

  /** The parameter loses nothing: when no field name holds a comma, splitting
      it at the commas gives back the chosen list, in its order. */
  lemma BuildFieldsParamRoundTrip(fields: Option<seq<string>>, defaultFields: Option<seq<string>>)
    requires |ChosenFields(fields, defaultFields)| >= 1
    requires forall i :: 0 <= i < |ChosenFields(fields, defaultFields)| ==> NoComma(ChosenFields(fields, defaultFields)[i])
    ensures Split(BuildFieldsParam(fields, defaultFields)) == ChosenFields(fields, defaultFields)
  {
    SplitJoin(ChosenFields(fields, defaultFields));
  }

  /** None of the field constants holds a comma. */
  lemma FieldConstantsCommaFree()
    ensures forall i :: 0 <= i < |DefaultPaperFields| ==> NoComma(DefaultPaperFields[i])
    ensures forall i :: 0 <= i < |DefaultAuthorFields| ==> NoComma(DefaultAuthorFields[i])
    ensures forall i :: 0 <= i < |DefaultCitationFields| ==> NoComma(DefaultCitationFields[i])
  {
  }

  /** With no usable caller list and no explicit defaults, the parameter lists
      exactly the default paper fields. */
  lemma DefaultParamSplitsToDefaults(fields: Option<seq<string>>)
    requires fields.None? || fields.value == []
    ensures Split(BuildFieldsParam(fields, None)) == DefaultPaperFields
  {
    FieldConstantsCommaFree();
    BuildFieldsParamRoundTrip(fields, None);
  }

  /** The examples the fields tests check. */
  lemma BuildFieldsParamExamples()
    ensures BuildFieldsParam(Some(["title", "year", "abstract"]), None) == "title,year,abstract"
    ensures BuildFieldsParam(Some(["paperId"]), None) == "paperId"
    ensures BuildFieldsParam(None, Some(DefaultPaperFields)) == Join(DefaultPaperFields)
    ensures BuildFieldsParam(Some([]), Some(DefaultAuthorFields)) == Join(DefaultAuthorFields)
  {
    assert Join(["abstract"]) == "abstract";
    assert Join(["year", "abstract"]) == "year,abstract";
  }

  /** The essential fields are among the defaults, and every default field is
      one the API knows. */
  lemma FieldConstantsMembership()
    ensures "paperId" in DefaultPaperFields && "title" in DefaultPaperFields
    ensures "authors" in DefaultPaperFields && "year" in DefaultPaperFields
    ensures "authorId" in DefaultAuthorFields && "name" in DefaultAuthorFields && "hIndex" in DefaultAuthorFields
    ensures forall f :: f in DefaultPaperFields ==> f in AllPaperFields
    ensures forall f :: f in DefaultCitationFields ==> f in AllPaperFields
    ensures forall f :: f in DefaultAuthorFields ==> f in AllAuthorFields
  {
  }
}
