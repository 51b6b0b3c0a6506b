/** The login form (components/login-screen.tsx): the name typed by the
    player is trimmed and must keep at least two characters. */
module Login {
  import opened Types

  const NAME_REQUIRED: string := "Name is required"
  const NAME_TOO_SHORT: string := "Name must be at least 2 characters"

  /** The characters JavaScript's `String.prototype.trim` removes: white
      space (tab, vertical tab, form feed, space, no-break space, the byte
      order mark and the other space separators) and line terminators. */
  predicate IsTrimmable(c: char)
  {
    || c == '\t' || c == '\n' || c == '\U{000B}' || c == '\U{000C}' || c == '\r' || c == ' '
    || c == '\U{00A0}' || c == '\U{1680}' || ('\U{2000}' <= c <= '\U{200A}')
    || c == '\U{2028}' || c == '\U{2029}' || c == '\U{202F}' || c == '\U{205F}'
    || c == '\U{3000}' || c == '\U{FEFF}'
  }

  /** Drops the leading trimmable characters: the result is the suffix that
      starts at the first other character. */
  function TrimStart(s: string): (r: string)
    ensures |r| <= |s| && r == s[|s| - |r|..]
    ensures forall k :: 0 <= k < |s| - |r| ==> IsTrimmable(s[k])
    ensures r != [] ==> !IsTrimmable(r[0])
  {
    if s != [] && IsTrimmable(s[0]) then TrimStart(s[1..]) else s
  }

  /** Drops the trailing trimmable characters: the result is the prefix that
      ends at the last other character. */
  function TrimEnd(s: string): (r: string)
    ensures |r| <= |s| && r == s[..|r|]
    ensures forall k :: |r| <= k < |s| ==> IsTrimmable(s[k])
    ensures r != [] ==> !IsTrimmable(r[|r| - 1])
  {
    if s != [] && IsTrimmable(s[|s| - 1]) then TrimEnd(s[..|s| - 1]) else s
  }

  /** `name.trim()`. It is empty exactly when the name is made only of
      trimmable characters. */
  function Trim(s: string): (r: string)
    ensures |r| <= |s|
    ensures r == [] <==> forall k :: 0 <= k < |s| ==> IsTrimmable(s[k])
    ensures r != [] ==> !IsTrimmable(r[0]) && !IsTrimmable(r[|r| - 1])
  {
    TrimEnd(TrimStart(s))
  }

  /** Trimming a trimmed name changes nothing. */
  lemma TrimIdempotent(s: string)
    ensures Trim(Trim(s)) == Trim(s)
  {
    var r := Trim(s);
    assert r != [] ==> !IsTrimmable(r[0]);
    assert TrimStart(r) == r;
    assert r != [] ==> !IsTrimmable(r[|r| - 1]);
    assert TrimEnd(r) == r;
  }

  /** The error `validateForm` records for a name, `None` when it is valid. */
  function NameError(name: string): (r: Option<string>)
    ensures r == None <==> |Trim(name)| >= 2
    ensures r == Some(NAME_REQUIRED) <==> Trim(name) == []
    ensures r == Some(NAME_TOO_SHORT) <==> |Trim(name)| == 1
  {
    var trimmed := Trim(name);
    if trimmed == [] then Some(NAME_REQUIRED)
    else if |trimmed| < 2 then Some(NAME_TOO_SHORT)
    else None
  }

  /** The form's state: the text typed so far and the error map, which has
      one possible key and so is an optional message. */
  class LoginForm {
    var name: string
    var errors: Option<string>

    constructor ()
      ensures name == [] && errors == None
    {
      name := [];
      errors := None;
    }

    /** The input's change handler. */
    method SetName(text: string)
      modifies this`name
      ensures name == text
    {
      name := text;
    }

    /** `validateForm`: replaces the error map with the error for the current
        name and reports whether there is none. */
    method ValidateForm() returns (ok: bool)
      modifies this`errors
      ensures errors == NameError(name)
      ensures ok <==> |Trim(name)| >= 2
    {
      var newErrors: Option<string> := None;
      var trimmed := Trim(name);
      if trimmed == [] {
        newErrors := Some(NAME_REQUIRED);
      } else if |trimmed| < 2 {
        newErrors := Some(NAME_TOO_SHORT);
      }
      errors := newErrors;
      ok := newErrors == None;
    }

    /** `handleSubmit`: validates and, when the name is valid, hands the
        trimmed name (and no e-mail) to `onLogin`; `None` means `onLogin` is
        not called. */
    method HandleSubmit() returns (login: Option<User>)
      modifies this`errors
      ensures errors == NameError(name)
      ensures login.Some? <==> |Trim(name)| >= 2
      ensures login.Some? ==> login.value == User(Trim(name), None)
    {
      var ok := ValidateForm();
      if ok {
        login := Some(User(Trim(name), None));
      } else {
        login := None;
      }
    }
  }
}
