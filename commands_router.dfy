/** The body check in front of the slash-command route
    (src/commands/commands.router.ts, validateSlashCommandRequest): each
    required field is reported as missing when falsy, or as badly formatted
    when present but not a string; any report answers 400, otherwise the
    request goes on. Reading a field of an undefined or null body throws,
    which answers 500. */
module CommandsRouter {
  import opened Wrappers
  import opened Json

  const RequiredFields: seq<string> := ["text", "user_id"]

  const FormatMessage: string := "Should be type string"

  /** The two lists, and whether `format` was created before `missingFields`:
      the object's keys serialize in the order they were first assigned. */
  datatype ErrorDetails = ErrorDetails(missingFields: Option<seq<string>>, format: Option<seq<(string, string)>>, formatFirst: bool)

  datatype RouterOutcome =
    | Respond(status: int, body: Json)
    | CallNext

  predicate Missing(body: Json, field: string) {
    Get(body, field).None? || !Truthy(Get(body, field).value)
  }

  predicate BadFormat(body: Json, field: string) {
    !Missing(body, field) && !Get(body, field).value.JStr?
  }

  /** The missing fields among `fields`, in field order. */
  function MissingFields(body: Json, fields: seq<string>): seq<string>
  {
    if fields == [] then []
    else
      var prev := fields[..|fields| - 1];
      var last := fields[|fields| - 1];
      assert fields == prev + [last];
      MissingFields(body, prev) + (if Missing(body, last) then [last] else [])
  }

  /** The fields with a format complaint, in field order. */
  function FormatErrors(body: Json, fields: seq<string>): seq<(string, string)>
  {
    if fields == [] then []
    else
      var prev := fields[..|fields| - 1];
      var last := fields[|fields| - 1];
      assert fields == prev + [last];
      FormatErrors(body, prev) + (if BadFormat(body, last) then [(last, FormatMessage)] else [])
  }

  /** Whether the first field with a complaint was badly formatted rather
      than missing, so that the `format` key was assigned first. */
  function FormatFirst(body: Json, fields: seq<string>): bool
  {
    if fields == [] then false
    else
      var prev := fields[..|fields| - 1];
      FormatFirst(body, prev) ||
      (MissingFields(body, prev) == [] && FormatErrors(body, prev) == [] && BadFormat(body, fields[|fields| - 1]))
  }

  /** An empty list is never stored: the key stays undefined instead. */
  function NonEmpty<T>(s: seq<T>): Option<seq<T>> {
    if s == [] then None else Some(s)
  }

  /** A list of strings as a JSON array, in order. */
  function StringArray(xs: seq<string>): (j: Json)
    ensures j.JArr? && |j.items| == |xs| && forall i :: 0 <= i < |xs| ==> j.items[i] == JStr(xs[i])
  {
    JArr(seq(|xs|, i requires 0 <= i < |xs| => JStr(xs[i])))
  }

  /** Field/message pairs as a JSON object, in order. */
  function MessageObject(fs: seq<(string, string)>): (j: Json)
    ensures j.JObj? && |j.fields| == |fs| && forall i :: 0 <= i < |fs| ==> j.fields[i] == Field(fs[i].0, JStr(fs[i].1))
  {
    JObj(seq(|fs|, i requires 0 <= i < |fs| => Field(fs[i].0, JStr(fs[i].1))))
  }

  function RenderDetails(details: ErrorDetails): Json {
    var missing := if details.missingFields.Some? then Some(StringArray(details.missingFields.value)) else None;
    var format := if details.format.Some? then Some(MessageObject(details.format.value)) else None;
    if details.formatFirst then Obj([("format", format), ("missingFields", missing)])
    else Obj([("missingFields", missing), ("format", format)])
  }

  method ValidateSlashCommandRequest(body: Option<Json>) returns (o: RouterOutcome)
    ensures body.None? || body.value.JNull? ==> o == Respond(500, Obj([("message", Some(JStr("Internal Server Error")))]))
    ensures body.Some? && !body.value.JNull? ==>
      var details := ErrorDetails(NonEmpty(MissingFields(body.value, RequiredFields)), NonEmpty(FormatErrors(body.value, RequiredFields)),
                                  FormatFirst(body.value, RequiredFields));
      if details.missingFields.Some? || details.format.Some? then
        o == Respond(400, Obj([("message", Some(JStr("Bad Request"))), ("errorDetails", Some(RenderDetails(details)))]))
      else o == CallNext
  {
    if body.None? || body.value.JNull? {
      // reading a field of undefined or null throws a TypeError
      return Respond(500, Obj([("message", Some(JStr("Internal Server Error")))]));
    }
    var b := body.value;
    var errorDetails := ErrorDetails(None, None, false);
    for i := 0 to |RequiredFields|
      invariant errorDetails.missingFields == NonEmpty(MissingFields(b, RequiredFields[..i]))
      invariant errorDetails.format == NonEmpty(FormatErrors(b, RequiredFields[..i]))
      invariant errorDetails.formatFirst == FormatFirst(b, RequiredFields[..i])
      invariant errorDetails.formatFirst ==> errorDetails.format.Some?
    {
      var field := RequiredFields[i];
      assert RequiredFields[..i + 1][..i] == RequiredFields[..i];
      FieldStep(b, RequiredFields, i);
      ghost var missing, format := MissingFields(b, RequiredFields[..i]), FormatErrors(b, RequiredFields[..i]);
      assert missing + [] == missing && format + [] == format;
      var v := Get(b, field);
      if v.None? || !Truthy(v.value) {
        if errorDetails.missingFields.Some? {
          errorDetails := errorDetails.(missingFields := Some(errorDetails.missingFields.value + [field]));
        } else {
          assert missing + [field] == [field];
          errorDetails := errorDetails.(missingFields := Some([field]));
        }
      } else if !v.value.JStr? {
        if errorDetails.format.Some? {
          errorDetails := errorDetails.(format := Some(errorDetails.format.value + [(field, FormatMessage)]));
        } else {
          assert format + [(field, FormatMessage)] == [(field, FormatMessage)];
          errorDetails := errorDetails.(format := Some([(field, FormatMessage)]), formatFirst := errorDetails.missingFields.None?);
        }
      }
    }
    assert RequiredFields[..|RequiredFields|] == RequiredFields;
    if errorDetails.missingFields.Some? || errorDetails.format.Some? {
      return Respond(400, Obj([("message", Some(JStr("Bad Request"))), ("errorDetails", Some(RenderDetails(errorDetails)))]));
    }
    return CallNext;
  }

  lemma FieldStep(body: Json, fields: seq<string>, i: nat)
    requires i < |fields|
    ensures MissingFields(body, fields[..i + 1]) ==
      MissingFields(body, fields[..i]) + (if Missing(body, fields[i]) then [fields[i]] else [])
    ensures FormatErrors(body, fields[..i + 1]) ==
      FormatErrors(body, fields[..i]) + (if BadFormat(body, fields[i]) then [(fields[i], FormatMessage)] else [])
    ensures FormatFirst(body, fields[..i + 1]) ==
      (FormatFirst(body, fields[..i]) ||
       (MissingFields(body, fields[..i]) == [] && FormatErrors(body, fields[..i]) == [] && BadFormat(body, fields[i])))
  {
    assert fields[..i + 1][..i] == fields[..i];
  }

  /** The request goes on exactly when text and user_id are both non-empty strings. */
  lemma NextOnlyForStringFields(body: Json)
    ensures MissingFields(body, RequiredFields) == [] && FormatErrors(body, RequiredFields) == [] <==>
      (Get(body, "text").Some? && Get(body, "text").value.JStr? && Get(body, "text").value.str != "" &&
       Get(body, "user_id").Some? && Get(body, "user_id").value.JStr? && Get(body, "user_id").value.str != "")
  {
    assert RequiredFields[..0] == [];
    assert RequiredFields[..2] == RequiredFields;
    FieldStep(body, RequiredFields, 0);
    FieldStep(body, RequiredFields, 1);
  }

  /** A field is reported missing exactly when it is required and falsy. */
  lemma {:induction false} MissingFieldsAreTheFalsyOnes(body: Json, fields: seq<string>, f: string)
    ensures f in MissingFields(body, fields) <==> f in fields && Missing(body, f)
  {
    if fields != [] {
      var prev := fields[..|fields| - 1];
      assert fields == prev + [fields[|fields| - 1]];
      MissingFieldsAreTheFalsyOnes(body, prev, f);
    }
  }

  /** A field draws a format complaint exactly when it is required, present and not a string. */
  lemma {:induction false} FormatErrorsAreTheNonStrings(body: Json, fields: seq<string>, f: string)
    ensures (f, FormatMessage) in FormatErrors(body, fields) <==> f in fields && BadFormat(body, f)
  {
    if fields != [] {
      var prev := fields[..|fields| - 1];
      assert fields == prev + [fields[|fields| - 1]];
      FormatErrorsAreTheNonStrings(body, prev, f);
    }
  }

  /** `format` comes first exactly when `text` is badly formatted, or `text`
      is a non-empty string and `user_id` is badly formatted. */
  lemma FormatFirstForRequiredFields(body: Json)
    ensures FormatFirst(body, RequiredFields) <==>
      BadFormat(body, "text") || (!Missing(body, "text") && !BadFormat(body, "text") && BadFormat(body, "user_id"))
  {
    assert RequiredFields[..0] == [];
    assert RequiredFields[..2] == RequiredFields;
    FieldStep(body, RequiredFields, 0);
    FieldStep(body, RequiredFields, 1);
  }

  /** A non-string `text` and a missing `user_id`: the details list `format`
      before `missingFields`, in the order the keys were assigned. */
  lemma BadTextThenMissingUser(body: Json)
    requires BadFormat(body, "text") && Missing(body, "user_id")
    ensures var details := ErrorDetails(NonEmpty(MissingFields(body, RequiredFields)), NonEmpty(FormatErrors(body, RequiredFields)),
                                        FormatFirst(body, RequiredFields));
      Keys(RenderDetails(details).fields) == ["format", "missingFields"] &&
      details.missingFields == Some(["user_id"]) && details.format == Some([("text", FormatMessage)])
  {
    FormatFirstForRequiredFields(body);
    assert RequiredFields[0] == "text" && RequiredFields[1] == "user_id";
    assert RequiredFields[..0] == [];
    assert RequiredFields[..2] == RequiredFields;
    FieldStep(body, RequiredFields, 0);
    FieldStep(body, RequiredFields, 1);
    assert MissingFields(body, RequiredFields) == ["user_id"];
    assert FormatErrors(body, RequiredFields) == [("text", FormatMessage)];
    var details := ErrorDetails(Some(["user_id"]), Some([("text", FormatMessage)]), true);
    var entries := [("format", Some(MessageObject([("text", FormatMessage)]))), ("missingFields", Some(StringArray(["user_id"])))];
    assert RenderDetails(details) == Obj(entries);
    assert Defined(entries) == [Field("format", entries[0].1.value)] + Defined(entries[1..]);
    assert Defined(entries[1..]) == [Field("missingFields", entries[1].1.value)] + Defined(entries[2..]);
  }
}
