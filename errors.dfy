/**
 * The two error conventions of the repository: the GraphQL resolvers throw
 * errors with a numeric `code` and a `data` list, the REST middleware and
 * controllers throw errors with a `statusCode` that the final error handler
 * turns into the HTTP status.
 */
module Errors {
  import opened Wrappers

  /** A resolver's error: its message, its `code` if one was set, and the messages in `data`. */
  datatype GraphQLError = GraphQLError(message: string, code: Option<int>, data: seq<string>)

  /** The resolvers' `setError(message, code)`. */
  function Coded(message: string, code: int): (e: GraphQLError) {
    GraphQLError(message, Some(code), [])
  }

  /** An error thrown by the store or the runtime: it carries no code. */
  function Uncoded(message: string): (e: GraphQLError) {
    GraphQLError(message, None, [])
  }

  /** A REST error: its message, its `statusCode` property and its `data` property. */
  datatype HttpError = HttpError(message: string, statusCode: Option<int>, data: Option<seq<string>>)

  /** The truthiness of `err.statusCode` (unset and 0 are falsy). */
  predicate HasStatus(e: HttpError) {
    e.statusCode.Some? && e.statusCode.value != 0
  }

  /** `new Error(message)` with no further properties. */
  function Plain(message: string): (e: HttpError) {
    HttpError(message, None, None)
  }

  /**
   * `setError(err, code)` of middleware/is-owner.js and controllers/feed.js:
   * the code is filled in only when the error has no status yet, so an
   * existing status is never overwritten.
   */
  function SetStatus(e: HttpError, code: int): (r: HttpError)
    ensures HasStatus(e) ==> r == e
    ensures !HasStatus(e) ==> r.statusCode == Some(code)
    ensures r.message == e.message && r.data == e.data
  {
    if HasStatus(e) then e else e.(statusCode := Some(code))
  }

  /** `setError` applied with each code in turn, as an error travels through nested handlers. */
  function SetStatusAll(e: HttpError, codes: seq<int>): (r: HttpError)
    decreases |codes|
  {
    if codes == [] then e else SetStatusAll(SetStatus(e, codes[0]), codes[1..])
  }

  /** Once an error has a status, no later `setError` changes it. */
  lemma {:induction false} ExistingStatusWins(e: HttpError, codes: seq<int>)
    requires HasStatus(e)
    ensures SetStatusAll(e, codes) == e
    decreases |codes|
  {
    if codes != [] {
      ExistingStatusWins(SetStatus(e, codes[0]), codes[1..]);
    }
  }

  /** For an error without a status, the first non-zero code assigned is the one that stays. */
  lemma {:induction false} FirstCodeWins(e: HttpError, codes: seq<int>, i: nat)
    requires !HasStatus(e)
    requires i < |codes| && codes[i] != 0
    requires forall j :: 0 <= j < i ==> codes[j] == 0
    ensures SetStatusAll(e, codes) == e.(statusCode := Some(codes[i]))
    decreases i
  {
    var e' := SetStatus(e, codes[0]);
    if i == 0 {
      ExistingStatusWins(e', codes[1..]);
    } else {
      FirstCodeWins(e', codes[1..], i - 1);
      assert e'.(statusCode := Some(codes[i])) == e.(statusCode := Some(codes[i]));
    }
  }
}
