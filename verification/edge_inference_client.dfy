/** validate_inference_response (edge/inference_client.py) and what a response that passes it proves. */
module ResponseValidation {
  import opened CommonTypes
  import opened RuntimeSpec
  import opened ServerSystem
  import opened ServerInvariant
  import opened ServerTheorems

  /** The request's own identity, then the three hashes the client can recompute. */
  function Validate(req: Request, response: Response): (r: Outcome<Response>)
    ensures r.Returned? ==> r.value == response && response.publishable
    ensures r.Raised? ==> r.code == ResponseMismatch
  {
    var row := response.row;
    if row.session != req.session || row.trial != req.trial || row.skill != req.skill
      || row.generation != req.generation || row.sequence != req.sequence || !response.publishable
    then Raised(ResponseMismatch)
    else if row.observationHash != OfObservation(req.observation) || row.requestHash != req.Hash()
      || row.actionHash != OfActions(response.actions)
    then Raised(ResponseMismatch)
    else Returned(response)
  }

  /** A response passes for one request only, up to the token: it cannot be mistaken for the answer to another. */
  lemma OneRequestPerResponse(p: Request, q: Request, response: Response)
    requires Validate(p, response).Returned? && Validate(q, response).Returned?
    ensures p == q.(token := p.token)
  {
  }

  lemma MemberOfAnswered(responses: seq<Response>, i: nat, id: SessionId)
    requires i < |responses| && responses[i].row.session == id
    ensures responses[i].row in OfSession(Answered(responses), id)
  {
    InOfSession(Answered(responses), i, id);
  }

  lemma InOfSession(rows: seq<Row>, i: nat, id: SessionId)
    requires i < |rows| && rows[i].session == id
    ensures rows[i] in OfSession(rows, id)
    decreases |rows|
  {
    if i < |rows| - 1 {
      InOfSession(rows[..|rows| - 1], i, id);
    }
  }

  /** Any response the server ever gave that passes for request n of a session is the answer to row n of that
      session's log,
      whatever the transport mixed up on the way. */
  lemma PassingResponseIsTheRow(s: System, req: Request, response: Response)
    requires Inv(s) && response in s.responses && Validate(req, response).Returned? && req.session in s.rt.leases
    ensures req.sequence < |SessionRows(s.rt, req.session)|
    ensures var row := SessionRows(s.rt, req.session)[req.sequence];
      row == response.row && row.requestHash == req.Hash() && row.actionHash == OfActions(response.actions)
  {
    var i :| 0 <= i < |s.responses| && s.responses[i] == response;
    MemberOfAnswered(s.responses, i, req.session);
    assert SequenceInv(s, req.session);
    var rows := SessionRows(s.rt, req.session);
    var k :| 0 <= k < |rows| && rows[k] == response.row;
    assert rows[k].sequence == k;
  }
}
