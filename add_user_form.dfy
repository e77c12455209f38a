/** The add-user form: the submit guard on the trimmed inputs, the payload it
    sends, and the state reset and list invalidation when the request succeeds. */
module AddUserForm {
  import opened JsValues
  import opened JsText
  import opened QueryCache
  import opened UseUsers
  import UsersApi

  /** The body of `addUser(...)` sent by the form. */
  datatype NewUser = NewUser(firstName: string, lastName: string, email: string)

  function NewUserJson(u: NewUser): Json
  {
    JObject(map["firstName" := JString(u.firstName), "lastName" := JString(u.lastName),
                "email" := JString(u.email)])
  }

  /** `handleSubmit`: submits only when both trimmed inputs are non-empty, with
      the trimmed name as first name, an empty last name and the trimmed email. */
  function SubmitPayload(name: string, email: string): Option<NewUser>
  {
    if Trim(name) != "" && Trim(email) != "" then Some(NewUser(Trim(name), "", Trim(email))) else None
  }

  /** A submit happens exactly when each input has a character that is not white
      space; the fields sent carry no white space at either end. */
  lemma SubmitPayloadSpec(name: string, email: string)
    ensures SubmitPayload(name, email).Some? <==> !AllWhiteSpace(name) && !AllWhiteSpace(email)
    ensures SubmitPayload(name, email).Some? ==>
      var p := SubmitPayload(name, email).value;
      && p.firstName == Trim(name) && p.email == Trim(email) && p.lastName == ""
      && p.firstName != [] && !IsWhiteSpace(p.firstName[0]) && !IsWhiteSpace(p.firstName[|p.firstName| - 1])
      && p.email != [] && !IsWhiteSpace(p.email[0]) && !IsWhiteSpace(p.email[|p.email| - 1])
  {
  }

  class AddUserFormState {
    var name: string
    var email: string
    var showSuccessPopup: bool

    constructor ()
      ensures name == "" && email == "" && !showSuccessPopup
    {
      name, email, showSuccessPopup := "", "", false;
    }

    method SetName(s: string)
      modifies this
      ensures name == s && email == old(email) && showSuccessPopup == old(showSuccessPopup)
    {
      name := s;
    }

    method SetEmail(s: string)
      modifies this
      ensures email == s && name == old(name) && showSuccessPopup == old(showSuccessPopup)
    {
      email := s;
    }

    /** The popup's close button, and the timer that hides it. */
    method HidePopup()
      modifies this
      ensures !showSuccessPopup && name == old(name) && email == old(email)
    {
      showSuccessPopup := false;
    }

    /** Submits the form and lets the request settle. With no payload nothing is
        sent; on success `["users"]` is invalidated, both inputs are cleared and
        the popup is shown; on failure (there is no error handler) nothing changes. */
    method HandleSubmit(client: QueryClient, response: UsersApi.FetchOutcome)
      returns (payload: Option<NewUser>, result: Option<Result<Json, UsersApi.ApiError>>)
      modifies this, client
      ensures payload == SubmitPayload(old(name), old(email))
      ensures result.Some? <==> payload.Some?
      ensures payload.Some? ==> result.value == UsersApi.Send(UsersApi.AddUser(NewUserJson(payload.value)), response)
      ensures if result.Some? && result.value.Ok? then
                && client.entries == Invalidated(old(client.entries), UsersFilter)
                && name == "" && email == "" && showSuccessPopup
              else
                && client.entries == old(client.entries)
                && name == old(name) && email == old(email) && showSuccessPopup == old(showSuccessPopup)
    {
      payload := None;
      result := None;
      var trimmedName, trimmedEmail := Trim(name), Trim(email);
      if trimmedName != "" && trimmedEmail != "" {
        payload := Some(NewUser(trimmedName, "", trimmedEmail));
        var r := UsersApi.Send(UsersApi.AddUser(NewUserJson(payload.value)), response);
        if r.Ok? {
          client.InvalidateQueries(UsersFilter);
          name, email, showSuccessPopup := "", "", true;
        }
        result := Some(r);
      }
    }
  }

  /** Unlike the hook's add mutation, the form's success does not reach the
      search results: an entry under `["search-users"]` keeps its staleness flag. */
  lemma FormSuccessLeavesSearches(m: Entries, query: string)
    requires SearchUsersQuery(query).key in m
    ensures Invalidated(m, UsersFilter)[SearchUsersQuery(query).key] == m[SearchUsersQuery(query).key]
  {
    UsersFilterMissesOthers(0, 0, 0, query);
  }
}
