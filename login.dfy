/** The login screen's token gate (src/pages/Login.tsx): a blank token is
    refused on the spot; any other token starts a (simulated) validation that,
    when it completes, grants access exactly to the literal demo token. */
module Login {
  import opened Text

  /** The one token the simulated validation accepts. */
  const DEMO_TOKEN: string := "123456"

  /** The three ways a press of "Acessar Rota" can end. */
  datatype Decision = TokenRequired | Granted | Invalid

  /** The decision `handleTokenSubmit` reaches for `token`: the blank check
      looks at the trimmed token, the comparison at the token as typed. */
  function Decide(token: string): (d: Decision)
    ensures d == TokenRequired <==> IsBlank(token)
    ensures d == Granted <==> token == DEMO_TOKEN
    ensures d == Invalid <==> !IsBlank(token) && token != DEMO_TOKEN
  {
    if IsBlank(token) then TokenRequired
    else if token == DEMO_TOKEN then Granted
    else Invalid
  }

  /** Surrounding whitespace is not trimmed before the comparison: " 123456"
      gets past the blank check and is then rejected. */
  lemma PaddedDemoTokenIsInvalid()
    ensures !IsBlank(" 123456") && Decide(" 123456") == Invalid
  {
  }

  /** What pressing the button starts: nothing (the blank-token toast), or a
      validation of the token as it was at the press. */
  datatype Start = Refused | Validating(token: string)

  /** The login component: the typed token and the loading flag. */
  class LoginPage {
    var token: string
    var isLoading: bool

    constructor ()
      ensures token == "" && !isLoading
    {
      token := "";
      isLoading := false;
    }

    /** The token field's `onChange`. */
    method SetToken(text: string)
      modifies this
      ensures token == text && isLoading == old(isLoading)
    {
      token := text;
    }

    /** The synchronous half of `handleTokenSubmit`: a blank token is refused
        and the loading flag is left alone; any other token raises the flag
        and is handed, as the timer's closure captures it, to the deferred
        half. */
    method SubmitToken() returns (start: Start)
      modifies this
      ensures token == old(token)
      ensures start == Refused <==> Decide(token) == TokenRequired
      ensures start == Refused ==> isLoading == old(isLoading)
      ensures start != Refused ==> start == Validating(token) && isLoading
    {
      if IsBlank(token) {
        start := Refused;
        return;
      }
      isLoading := true;
      start := Validating(token);
    }

    /** The deferred half, run when the timer fires: lower the loading flag,
        then grant access exactly for the demo token. `captured` is the
        token the closure saw when the button was pressed, which later
        typing does not change. */
    method CompleteValidation(captured: string) returns (decision: Decision)
      requires !IsBlank(captured)
      modifies this
      ensures !isLoading && token == old(token)
      ensures decision == Decide(captured)
      ensures decision == Granted <==> captured == DEMO_TOKEN
    {
      isLoading := false;
      if captured == DEMO_TOKEN {
        decision := Granted;
      } else {
        decision := Invalid;
      }
    }
  }

  /** A press on a blank token never starts loading; a press on any other
      token is decided, once the timer fires, as `Decide` says. */
  method PressAndWait(page: LoginPage) returns (decision: Decision)
    requires !page.isLoading
    modifies page
    ensures !page.isLoading && page.token == old(page.token)
    ensures decision == Decide(page.token)
  {
    var start := page.SubmitToken();
    if start == Refused {
      decision := TokenRequired;
    } else {
      decision := page.CompleteValidation(start.token);
    }
  }
}
