/**
  What the account binding store holds, in memory and on disk.

  Encryption is an ideal authenticated cipher: a ciphertext opens under exactly
  the additional data it was sealed with. A token digest is an ideal hash.
  Additional data is kept structured; `RenderInjective` shows that the strings the
  program renders it to tell the same values apart.
 */
module Records {
  import opened Wrappers
  import opened Text
  import opened Canonical

  datatype Digest = Digest(raw: string)

  datatype AAD = ForBinding(issuer: string, subject: string, id: int) | ForTransaction(digest: Digest)

  datatype Ciphertext = Absent | Sealed(plaintext: string, aad: AAD)

  function Open(c: Ciphertext, aad: AAD): Option<string> {
    if c.Sealed? && c.aad == aad then Some(c.plaintext) else None
  }

  /** The issuer and client this process is configured for, and the permission grammar. */
  datatype Config = Config(issuer: string, clientId: string, grammar: Grammar)

  datatype Binding = Binding(
    telegramId: int, issuer: string, subject: string, displayName: string, username: string,
    scopes: seq<string>, roles: seq<string>, permissions: seq<string>,
    accessExpiresAt: int, nextRefreshAt: int, refresh: Ciphertext, boundAt: int, updatedAt: int)

  datatype Account = Account(id: int, name: string, username: string)

  datatype Ticket = Ticket(telegramId: int, displayName: string, username: string, expiresAt: int)

  datatype Transaction = Transaction(telegramId: int, nonce: Ciphertext, verifier: Ciphertext, expiresAt: int)

  /** A consumed transaction, its secrets opened. */
  datatype Login = Login(telegramId: int, nonce: string, verifier: string)

  datatype Mem = Mem(bindings: map<int, Binding>, tickets: map<Digest, Ticket>, transactions: map<Digest, Transaction>)

  datatype Snapshot = Snapshot(
    version: int, issuer: string, clientId: string,
    bindings: seq<Binding>, tickets: map<Digest, Ticket>, transactions: map<Digest, Transaction>)

  datatype Wal = Wal(version: int, issuer: string, clientId: string, binding: Binding)

  datatype Disk = Disk(main: Option<Snapshot>, wal: Option<Wal>)

  const STORE_VERSION := 1
  const BIND_TICKET_TTL := 600
  const TRANSACTION_TTL := 600
  const PERMISSION_SYNC_INTERVAL := 300

  const NUL: string := [0 as char]

  function BindingAAD(b: Binding): AAD { ForBinding(b.issuer, b.subject, b.telegramId) }

  function TransactionAAD(d: Digest): AAD { ForTransaction(d) }

  function Render(aad: AAD): string {
    match aad
    case ForBinding(issuer, subject, id) => issuer + NUL + subject + NUL + Decimal(id)
    case ForTransaction(d) => "oidc-txn" + NUL + d.raw
  }

  /** The key under which two bindings are the same provider identity. */
  function SubjectKey(b: Binding): string { b.issuer + NUL + b.subject }

  function Token(b: Binding): Option<string> { Open(b.refresh, BindingAAD(b)) }

  lemma ConcatCancelsLeft(a: string, x: string, y: string)
    requires a + x == a + y
    ensures x == y
  {
    assert (a + x)[|a|..] == x;
    assert (a + y)[|a|..] == y;
  }

  lemma SubjectKeyExact(a: Binding, b: Binding)
    requires a.issuer == b.issuer
    ensures SubjectKey(a) == SubjectKey(b) <==> a.subject == b.subject
  {
    if SubjectKey(a) == SubjectKey(b) { ConcatCancelsLeft(a.issuer + NUL, a.subject, b.subject); }
  }

  /** Subjects may hold any character, even the separator; the digits behind the last separator still tell identities apart. */
  lemma TailSplitsOnce(s1: string, n1: string, s2: string, n2: string)
    requires s1 + NUL + n1 == s2 + NUL + n2
    requires NUL[0] !in n1 && NUL[0] !in n2
    ensures s1 == s2 && n1 == n2
  {
    var w := s1 + NUL + n1;
    assert w[|s1|] == NUL[0] && w[|s2|] == NUL[0];
    forall k | |s1| < k < |w| ensures w[k] != NUL[0] { assert w[k] == n1[k - |s1| - 1]; }
    forall k | |s2| < k < |w| ensures w[k] != NUL[0] { assert w[k] == n2[k - |s2| - 1]; }
    assert |s1| == |s2|;
    assert s1 == w[..|s1|] == s2;
    assert n1 == w[|s1| + 1..] == n2;
  }

  /** Of one issuer's bindings, and of transactions, no two render alike. */
  lemma RenderInjective(a: AAD, b: AAD)
    requires Render(a) == Render(b)
    requires a.ForBinding? ==> b.ForBinding? && a.issuer == b.issuer
    requires a.ForTransaction? ==> b.ForTransaction?
    ensures a == b
  {
    if a.ForBinding? {
      var t1, t2 := a.subject + NUL + Decimal(a.id), b.subject + NUL + Decimal(b.id);
      assert Render(a) == (a.issuer + NUL) + t1 && Render(b) == (a.issuer + NUL) + t2;
      ConcatCancelsLeft(a.issuer + NUL, t1, t2);
      TailSplitsOnce(a.subject, Decimal(a.id), b.subject, Decimal(b.id));
      DecimalInjective(a.id, b.id);
    } else {
      ConcatCancelsLeft("oidc-txn" + NUL, a.digest.raw, b.digest.raw);
    }
  }
}
