/**
 * The login page of the FrontEnd copy: `LoginContent`'s submit handler,
 * which refuses empty fields before calling `login` and navigates home on
 * success, and the "account created" banner driven by the query string.
 */
module FrontEndLoginPage {
  import opened Common

  const FillInAllFields := "Please fill in all fields"
  const LoginFailed := "Login failed"
  const HomePath := "/"

  datatype LoginFormData = LoginFormData(username: string, password: string)

  datatype FormState = FormState(form: LoginFormData, error: string, isLoading: bool)

  /** The state after a submit, the credentials passed to `login` if it was
      called, the state rendered while it was pending, and the navigation. */
  datatype Submission = Submission(
    after: FormState, call: Option<LoginFormData>, pending: FormState, navigate: Option<string>)

  /** `handleSubmit`, including how the awaited `login` settled. */
  function SubmitStep(st: FormState, outcome: Settled): (r: Submission)
    ensures r.after.form == st.form
    ensures r.call.Some? <==> st.form.username != "" && st.form.password != ""
    ensures r.call.None? ==> r.after == st.(error := FillInAllFields) && r.navigate == None
    ensures r.call.Some? ==>
      && r.call.value == st.form
      && r.pending == st.(error := "", isLoading := true)
      && !r.after.isLoading
      && (outcome == Fulfilled <==> r.navigate == Some(HomePath))
    ensures r.navigate.Some? ==> r.call.Some? && outcome == Fulfilled && r.navigate == Some(HomePath)
    ensures r.call.Some? && outcome == Fulfilled ==> r.after.error == ""
    ensures r.call.Some? && outcome.Rejected? ==> r.after.error == MessageOr(outcome.reason, LoginFailed)
  {
    var cleared := st.(error := "");
    if st.form.username == "" || st.form.password == "" then
      var refused := cleared.(error := FillInAllFields);
      Submission(refused, None, refused, None)
    else
      var pending := cleared.(isLoading := true);
      match outcome
      case Fulfilled => Submission(pending.(isLoading := false), Some(st.form), pending, Some(HomePath))
      case Rejected(t) => Submission(pending.(error := MessageOr(t, LoginFailed), isLoading := false), Some(st.form), pending, None)
  }

  /** An empty field is refused without calling `login` and leaves the
      loading flag as it was. */
  lemma EmptyFieldRefused(st: FormState, outcome: Settled)
    requires st.form.username == "" || st.form.password == ""
    ensures var r := SubmitStep(st, outcome);
      r.call == None && r.after.error == FillInAllFields && r.after.isLoading == st.isLoading && r.navigate == None
  {
  }

  /** Some pair of `params` has the key. */
  predicate HasKey(params: seq<(string, string)>, key: string) {
    exists i :: 0 <= i < |params| && params[i].0 == key
  }

  /** The first pair of `params` with the key is `(key, value)`. */
  predicate FirstWithKey(params: seq<(string, string)>, key: string, value: string) {
    exists i :: 0 <= i < |params| && params[i] == (key, value)
      && forall j :: 0 <= j < i ==> params[j].0 != key
  }

  /** A leading pair with another key changes neither relation. */
  lemma FirstWithKeyShift(params: seq<(string, string)>, key: string, value: string)
    requires params != [] && params[0].0 != key
    ensures FirstWithKey(params, key, value) <==> FirstWithKey(params[1..], key, value)
    ensures HasKey(params, key) <==> HasKey(params[1..], key)
  {
    var rest := params[1..];
    if FirstWithKey(rest, key, value) {
      var i :| 0 <= i < |rest| && rest[i] == (key, value) && forall j :: 0 <= j < i ==> rest[j].0 != key;
      assert params[i + 1] == (key, value);
      assert forall j :: 0 <= j < i + 1 ==> params[j].0 != key by {
        forall j | 0 <= j < i + 1 ensures params[j].0 != key {
          if j > 0 { assert params[j] == rest[j - 1]; }
        }
      }
    }
    if FirstWithKey(params, key, value) {
      var i :| 0 <= i < |params| && params[i] == (key, value) && forall j :: 0 <= j < i ==> params[j].0 != key;
      assert rest[i - 1] == (key, value);
      assert forall j :: 0 <= j < i - 1 ==> rest[j].0 != key by {
        forall j | 0 <= j < i - 1 ensures rest[j].0 != key {
          assert rest[j] == params[j + 1];
        }
      }
    }
    if HasKey(rest, key) {
      var i :| 0 <= i < |rest| && rest[i].0 == key;
      assert params[i + 1].0 == key;
    }
    if HasKey(params, key) {
      var i :| 0 <= i < |params| && params[i].0 == key;
      assert rest[i - 1].0 == key;
    }
  }

  /** The first pair with a key is unique, so it determines the value. */
  lemma FirstWithKeyUnique(params: seq<(string, string)>, key: string, v: string, w: string)
    requires FirstWithKey(params, key, v) && FirstWithKey(params, key, w)
    ensures v == w
  {
    var i :| 0 <= i < |params| && params[i] == (key, v) && forall j :: 0 <= j < i ==> params[j].0 != key;
    var k :| 0 <= k < |params| && params[k] == (key, w) && forall j :: 0 <= j < k ==> params[j].0 != key;
    assert !(i < k) && !(k < i);
  }

  /** `URLSearchParams.get`: the value of the first pair with the key, or
      `null` when no pair has it. */
  function QueryGet(params: seq<(string, string)>, key: string): (r: Option<string>)
    ensures r.Some? <==> HasKey(params, key)
    ensures r.Some? ==> FirstWithKey(params, key, r.value)
  {
    if params == [] then None
    else if params[0].0 == key then
      assert params[0] == (key, params[0].1);
      Some(params[0].1)
    else
      var r := QueryGet(params[1..], key);
      FirstWithKeyShift(params, key, if r.Some? then r.value else "");
      r
  }

  /** Pairs appended after one with the key do not change what `get` returns. */
  lemma {:induction false} QueryGetIgnoresLaterPairs(params: seq<(string, string)>, more: seq<(string, string)>, key: string)
    requires HasKey(params, key)
    ensures QueryGet(params + more, key) == QueryGet(params, key)
  {
    var r := QueryGet(params, key);
    var s := QueryGet(params + more, key);
    var v := r.value;
    var i :| 0 <= i < |params| && params[i] == (key, v) && forall j :: 0 <= j < i ==> params[j].0 != key;
    assert (params + more)[i] == params[i];
    assert FirstWithKey(params + more, key, v);
    assert HasKey(params + more, key) by {
      assert (params + more)[i].0 == key;
    }
    FirstWithKeyUnique(params + more, key, s.value, v);
  }

  /** `searchParams.get('registered') === 'true'`: the banner shows exactly
      when the first `registered` parameter is the string "true". */
  function JustRegistered(params: seq<(string, string)>): (r: bool)
    ensures r <==> FirstWithKey(params, "registered", "true")
  {
    var v := QueryGet(params, "registered");
    assert v.Some? && FirstWithKey(params, "registered", "true") ==> v.value == "true" by {
      if v.Some? && FirstWithKey(params, "registered", "true") {
        FirstWithKeyUnique(params, "registered", v.value, "true");
      }
    }
    v == Some("true")
  }

  /** A later `registered=true` does not show the banner once an earlier
      `registered` parameter has another value. */
  lemma LaterRegisteredIgnored(params: seq<(string, string)>, more: seq<(string, string)>, value: string)
    requires FirstWithKey(params, "registered", value) && value != "true"
    ensures !JustRegistered(params + more)
  {
    var i :| 0 <= i < |params| && params[i] == ("registered", value)
      && forall j :: 0 <= j < i ==> params[j].0 != "registered";
    assert HasKey(params, "registered") by {
      assert params[i].0 == "registered";
    }
    QueryGetIgnoresLaterPairs(params, more, "registered");
    FirstWithKeyUnique(params, "registered", QueryGet(params, "registered").value, value);
  }

  class LoginContent {
    var formData: LoginFormData
    var error: string
    var isLoading: bool

    function State(): FormState
      reads this
    {
      FormState(formData, error, isLoading)
    }

    constructor ()
      ensures State() == FormState(LoginFormData("", ""), "", false)
    {
      formData := LoginFormData("", "");
      error := "";
      isLoading := false;
    }

    method HandleSubmit(outcome: Settled) returns (call: Option<LoginFormData>, pending: FormState, navigate: Option<string>)
      modifies this
      ensures Submission(State(), call, pending, navigate) == SubmitStep(old(State()), outcome)
    {
      error := "";
      if formData.username == "" || formData.password == "" {
        error := FillInAllFields;
        call, pending, navigate := None, State(), None;
        return;
      }
      isLoading := true;
      call, pending := Some(formData), State();
      navigate := None;
      match outcome {
        case Fulfilled =>
          navigate := Some(HomePath);
        case Rejected(t) =>
          error := MessageOr(t, LoginFailed);
      }
      isLoading := false;
    }
  }
}
