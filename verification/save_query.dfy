/** The SAVE_QUERY action: its intent check (`validate`) and the field checks
    of its handler. */
module SaveQuery {
  import opened JsValues
  import opened Text

  /** The phrases that mark a message as a request to save a query. */
  const Phrases: seq<string> := ["save this query", "store query", "bookmark query"]

  /** `validate`: the lower-cased text mentions one of the phrases; absent text
      is falsy. */
  function Validate(text: Option<string>): (ok: bool)
    ensures ok <==> text.Some? && exists p, i :: p in Phrases && OccursAt(Lower(text.value), p, i)
  {
    match text
    case None => false
    case Some(t) =>
      var lower := Lower(t);
      var ok := Contains(lower, "save this query") || Contains(lower, "store query") || Contains(lower, "bookmark query");
      assert forall p :: p in Phrases <==> p == "save this query" || p == "store query" || p == "bookmark query";
      ok
  }

  /** Matching ignores case: upper-casing the text does not change the verdict. */
  lemma ValidateIgnoresCase(t: string)
    ensures Validate(Some(Upper(t))) == Validate(Some(t))
  {
    LowerOfUpper(t);
  }

  /** The action's own second example, "Store this query as ...", does not
      mention "store query", so `validate` rejects it. */
  lemma StoreThisQueryExampleIsRejected()
    ensures !Validate(Some(StoreExample))
  {
    var lower := Lower(StoreExample);
    LowerExampleStart();
    forall p, i | p in Phrases && 0 <= i && i + |p| <= |lower|
      ensures !OccursAt(lower, p, i)
    {
      LowerExampleFacts(i);
      if i == 0 {
        DiffersAt(lower, p, i, if p[0] == 'b' then 0 else 6);
      } else if lower[i] != p[0] {
        DiffersAt(lower, p, i, 0);
      } else {
        DiffersAt(lower, p, i, 1);
      }
    }
  }

  const StoreExample := "Store this query as 'Vitalik Portfolio View'"

  lemma ExampleFacts(i: int)
    requires 0 <= i < |StoreExample| - 1
    ensures StoreExample[i] != 'b' && StoreExample[i] != 'B'
    ensures (StoreExample[i] == 's' || StoreExample[i] == 'S') ==> i == 0 || StoreExample[i + 1] == ' '
  {
  }

  lemma LowerExampleFacts(i: int)
    requires 0 <= i < |StoreExample| - 1
    ensures Lower(StoreExample)[i] != 'b'
    ensures Lower(StoreExample)[i] == 's' ==> i == 0 || Lower(StoreExample)[i + 1] == ' '
  {
    ExampleFacts(i);
  }

  lemma LowerExampleStart()
    ensures Lower(StoreExample)[0] == 's' && Lower(StoreExample)[6] == 't'
  {
    assert StoreExample[0] == 'S' && StoreExample[6] == 't';
    assert LowerChar('S') == 's';
  }

  lemma DiffersAt(s: string, p: string, i: int, k: int)
    requires 0 <= i && i + |p| <= |s| && 0 <= k < |p| && s[i + k] != p[k]
    ensures !OccursAt(s, p, i)
  {
    assert s[i..i + |p|][k] == s[i + k];
  }

  /** What the handler passes to its callback: the text shown to the user and
      the content, either `{ error: ... }` or `{ success: true }`. */
  datatype ReplyContent = ErrorContent(error: string) | SuccessContent
  datatype Reply = Reply(text: string, content: ReplyContent)

  /** The handler's result: what it emitted through the callback, if there is
      one, and the boolean it returned. */
  datatype HandlerResult = HandlerResult(emitted: Option<Reply>, returned: bool)

  const MissingDataReply := Reply("Missing query or title. Please provide both a query and a name for it.",
                                  ErrorContent("Missing data"))

  function SavedReply(title: string): Reply {
    Reply("\U{2705} Query titled \"" + title + "\" has been saved.", SuccessContent)
  }

  /** The reply after the schema check throws; the error's printed form comes
      from the validation library. */
  function SaveFailedReply(schemaError: string): Reply {
    Reply("\U{274C} Failed to save query: " + schemaError, ErrorContent("Save failed"))
  }

  function Emit(hasCallback: bool, reply: Reply): Option<Reply> {
    if hasCallback then Some(reply) else None
  }

  /** The handler, over the message content's `title` and `query` (`None` is a
      missing field). */
  function Handle(title: Option<JValue>, query: Option<JValue>, hasCallback: bool, schemaError: string): (h: HandlerResult)
    // A missing or empty field is reported as missing data.
    ensures !Truthy(title) || !Truthy(query) ==> h == HandlerResult(Emit(hasCallback, MissingDataReply), false)
    // Present fields that are not strings fail the schema check.
    ensures Truthy(title) && Truthy(query) && !(title.value.JStr? && query.value.JStr?) ==>
              h == HandlerResult(Emit(hasCallback, SaveFailedReply(schemaError)), false)
    // Two non-empty strings are saved.
    ensures h.returned <==> title.Some? && title.value.JStr? && title.value.s != ""
                            && query.Some? && query.value.JStr? && query.value.s != ""
    ensures h.returned ==> h.emitted == Emit(hasCallback, SavedReply(title.value.s))
  {
    if !Truthy(title) || !Truthy(query) then
      HandlerResult(Emit(hasCallback, MissingDataReply), false)
    else if !(title.value.JStr? && query.value.JStr?) then
      HandlerResult(Emit(hasCallback, SaveFailedReply(schemaError)), false)
    else
      HandlerResult(Emit(hasCallback, SavedReply(title.value.s)), true)
  }
}
