/** The exceptions the client raises: Python's built-in ones that its code paths can reach,
    and `TrainingError`, the one it defines, with its `__str__`. */
module Exceptions {
  import opened Wrappers
  import opened JsonValues
  import opened Strings

  /** `TrainingError(status, message)`: both values are kept exactly as given. */
  datatype TrainingError = TrainingError(status: Json, message: Json)

  datatype Error =
    | KeyError(key: string)          // a missing dictionary key or environment variable
    | TypeError(reason: string)      // a record built from the wrong fields, an unhashable key, a non-string joined
    | IndexError                     // `[...][0]` on an empty list
    | StopIteration                  // `next(...)` on an exhausted generator
    | AttributeError(name: string)   // `.get` on a value that is not a dict
    | Training(error: TrainingError)
    | Unrendered                     // `str()` of a JSON array or object, whose text is not modelled

  /** The members of (status, message) that are truthy, in that order: status first. */
  function Shown(e: TrainingError): (r: seq<Json>)
    ensures |r| <= 2
    ensures forall i :: 0 <= i < |r| ==> Truthy(r[i])
  {
    (if Truthy(e.status) then [e.status] else []) + (if Truthy(e.message) then [e.message] else [])
  }

  /** `' '.join(_ for _ in (status, message) if _)` AS WRITTEN: `str.join` accepts only strings,
      so a truthy status or message that is not a string raises TypeError. */
  function StrAsWritten(e: TrainingError): (r: Result<string, Error>)
  {
    var texts :- MapAll(Shown(e), JoinedAsWritten);
    Success(Join(" ", texts))
  }

  /** What `str.join` makes of one item: a string is taken as it is, anything else raises. */
  function JoinedAsWritten(j: Json): Result<string, Error>
  {
    if j.JStr? then Success(j.s) else Failure(TypeError("sequence item: expected str instance"))
  }

  /** `__str__` as evidently intended: the truthy members of (status, message), each as
      `str()` prints it, joined by one space. */
  function Str(e: TrainingError): (r: Result<string, Error>)
  {
    var texts :- MapAll(Shown(e), Rendered);
    Success(Join(" ", texts))
  }

  /** `str(j)`, where the model has it. */
  function Rendered(j: Json): Result<string, Error>
  {
    if Hashable(j) then Success(Render(j).value) else Failure(Unrendered)
  }

  /** The text `__str__` shows for one member of (status, message): "" when it is falsy. */
  function TextOf(j: Json): string
  {
    if Truthy(j) && Hashable(j) then Render(j).value else ""
  }

  /** `__str__`, case by case: status and message separated by one space when both are truthy;
      the truthy one alone, with no space, when only one is; the empty string when neither is.
      It fails only on a truthy member whose text the model does not have. */
  lemma {:induction false} StrCases(e: TrainingError)
    ensures Str(e).Success? <==>
      (Truthy(e.status) ==> Hashable(e.status)) && (Truthy(e.message) ==> Hashable(e.message))
    ensures Str(e).Success? ==>
      Str(e).value ==
        if Truthy(e.status) && Truthy(e.message) then TextOf(e.status) + " " + TextOf(e.message)
        else TextOf(e.status) + TextOf(e.message)
  {
    var shown := Shown(e);
    var r := MapAll(shown, Rendered);
    if Truthy(e.status) && Truthy(e.message) {
      assert shown == [e.status, e.message];
      if r.Success? {
        assert r.value == [TextOf(e.status), TextOf(e.message)];
        assert r.value[1..] == [TextOf(e.message)];
        assert Str(e) == Success(Join(" ", r.value));
      }
    } else if Truthy(e.status) {
      assert shown == [e.status];
      if r.Success? {
        assert r.value == [TextOf(e.status)];
      }
    } else if Truthy(e.message) {
      assert shown == [e.message];
      if r.Success? {
        assert r.value == [TextOf(e.message)];
      }
    } else {
      assert shown == [];
    }
  }

  /** `__str__` as written returns a value exactly when every truthy member is a string. */
  lemma StrAsWrittenCases(e: TrainingError)
    ensures StrAsWritten(e).Success? <==>
      (Truthy(e.status) ==> e.status.JStr?) && (Truthy(e.message) ==> e.message.JStr?)
  {
    var shown := Shown(e);
    var w := MapAll(shown, JoinedAsWritten);
    assert StrAsWritten(e).Success? <==> w.Success?;
    if Truthy(e.status) && Truthy(e.message) {
      assert shown == [e.status, e.message];
      assert w.Success? <==> JoinedAsWritten(shown[0]).Success? && JoinedAsWritten(shown[1]).Success?;
    } else if Truthy(e.status) {
      assert shown == [e.status];
      assert w.Success? <==> JoinedAsWritten(shown[0]).Success?;
    } else if Truthy(e.message) {
      assert shown == [e.message];
      assert w.Success? <==> JoinedAsWritten(shown[0]).Success?;
    }
  }

  /** Where `__str__` as written returns a value, the intended version returns the same one. */
  lemma StrAgreesWhereDefined(e: TrainingError)
    requires StrAsWritten(e).Success?
    ensures Str(e) == StrAsWritten(e)
  {
    var shown := Shown(e);
    var w := MapAll(shown, JoinedAsWritten);
    var r := MapAll(shown, Rendered);
    forall i | 0 <= i < |shown| ensures Rendered(shown[i]) == JoinedAsWritten(shown[i]) {
      assert JoinedAsWritten(shown[i]).Success?;
    }
    assert r.Success? && r.value == w.value;
    assert StrAsWritten(e) == Success(Join(" ", w.value));
    assert Str(e) == Success(Join(" ", r.value));
  }

  /** The discrepancy: an error reply such as `{"statusCode": 401, "message": "Access denied"}`
      gives a numeric status, which makes `__str__` as written raise instead of returning
      the status and the message, "401 Access denied". */
  lemma NumericStatusBreaksStr(message: string)
    requires message != ""
    ensures StrAsWritten(TrainingError(JNum(401), JStr(message))).Failure?
    ensures Str(TrainingError(JNum(401), JStr(message))) == Success("401" + " " + message)
  {
    var e := TrainingError(JNum(401), JStr(message));
    var shown := Shown(e);
    assert shown == [JNum(401), JStr(message)];
    assert JoinedAsWritten(shown[0]).Failure?;
    assert NatText(401) == "401" by {
      assert NatText(4) == "4";
      assert NatText(40) == NatText(4) + "0";
    }
    var texts := ["401", message];
    assert Rendered(shown[0]) == Success(texts[0]);
    assert Rendered(shown[1]) == Success(texts[1]);
    var m := MapAll(shown, Rendered);
    assert m.Success?;
    assert m.value == texts;
    assert texts[1..] == [message];
    assert Join(" ", texts) == texts[0] + " " + Join(" ", texts[1..]);
    assert Str(e) == Success(Join(" ", m.value));
  }
}
