/** The setup the program runs with, and that it meets what the proofs about the service ask of a setup. */
module Configured {
  import opened Wrappers
  import opened Text
  import opened Permissions
  import opened Records
  import opened Service
  import opened ServiceInv
  import opened StoreAnswers

  /** Names are cut to 256 characters. */
  function SetupFor(issuer: string, clientId: string): Setup {
    Setup(Config(issuer, clientId, GRAMMAR), LocalPermissionFromERP, name => BoundedText(name, 256))
  }

  lemma SetupIsValid(issuer: string, clientId: string)
    ensures ValidSetup(SetupFor(issuer, clientId))
    ensures var setup := SetupFor(issuer, clientId);
      && setup.cfg.issuer == issuer && setup.cfg.clientId == clientId
      && (forall n :: setup.shown(n) == Cut(TrimSpace(n), 256))
      && (forall v, p :: setup.local(v) == Some(p) <==> ToLower(TrimSpace(v)) == "magi:" + p && IsAuth(p) && PermissionPattern(p))
  {
    forall v, p ensures LocalPermissionFromERP(v) == Some(p) <==> ToLower(TrimSpace(v)) == "magi:" + p && IsAuth(p) && PermissionPattern(p) {
      LocalPermissionExact(v, p);
    }
    GrammarIsValid();
    forall v | LocalPermissionFromERP(v).Some? ensures ParseERP(LocalPermissionFromERP(v).value).Some? {
      LocalPermissionExact(v, LocalPermissionFromERP(v).value);
      ParseIsCanonical(LocalPermissionFromERP(v).value);
    }
  }
}
