/** Filling one parameter server from another, on the heap. */
module ParameterTransfer {
  import opened ParameterNames
  import opened ParameterTrees
  import opened ParameterLaws
  import opened ParameterRebuild
  import opened ParameterLinks
  import opened ParameterServers

  method SetAllParameters(server: ParameterServer, params: seq<Parameter>)
    requires server.Valid()
    modifies server, server.links.at.Values
    ensures server.Valid() && server.Model() == SetEach(old(server.Model()), params)
    ensures fresh(server.links.at.Values - old(server.links.at.Values))
  {
    var i := 0;
    while i < |params|
      invariant 0 <= i <= |params|
      invariant server.Valid() && server.Model() == SetEach(old(server.Model()), params[..i])
      invariant fresh(server.links.at.Values - old(server.links.at.Values))
    {
      assert params[..i+1][..i] == params[..i];
      server.SetParameter(params[i].name, params[i].value);
      i := i + 1;
    }
    assert params[..i] == params;
  }

  /** What a StageZero does with an upload. */
  method UploadParameters(server: ParameterServer, params: seq<Parameter>)
    requires server.Valid()
    modifies server, server.links.at.Values
    ensures server.Valid() && server.Model() == Uploaded(params)
  {
    server.Clear();
    SetAllParameters(server, params);
  }

  /**
   * The upload of a connection.  Afterwards the StageZero answers every name as Capcom does exactly
   * when Capcom's tree is one that an upload carries over.
   */
  method ConnectUpload(capcom: ParameterServer, stageZero: ParameterServer)
    requires capcom.Valid() && stageZero.Valid() && capcom != stageZero
    requires capcom.links.at.Values !! stageZero.links.at.Values
    requires NamedRoots(capcom.Model())
    modifies stageZero, stageZero.links.at.Values
    ensures stageZero.Valid() && capcom.Valid() && capcom.Model() == old(capcom.Model())
    ensures (forall name :: AnswersAlike(capcom.Model(), stageZero.Model(), name)) <==> Uploadable(capcom.Model())
    ensures Uploadable(capcom.Model()) ==> forall q :: Get(stageZero.Model(), q) == Get(capcom.Model(), q)
  {
    var params, leaves := capcom.GetAllParameters();
    capcom.ModelFacts();
    UploadParameters(stageZero, params);
    RebuildExactly(capcom.Model(), leaves);
    if Uploadable(capcom.Model()) {
      forall p | p in leaves ensures Canonical(p) {
        assert IsLeaf(capcom.Model(), p);
      }
      forall q ensures Get(stageZero.Model(), q) == Get(capcom.Model(), q) {
        RebuildAnswersAlike(capcom.Model(), leaves, q);
      }
    }
  }
}
