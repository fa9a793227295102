/** The four words the protocols use, as the texts the DBMS stores. */
module LogTexts {
  import Domain
  import DB = TransactionLog

  function Text(w: Domain.Word): string {
    match w
    case WORKING => DB.WORKING
    case VOTEYES => "VOTEYES"
    case COMMIT => "COMMIT"
    case ABORT => "ABORT"
  }

  lemma TextsDiffer(v: Domain.Word, w: Domain.Word)
    ensures Text(v) == Text(w) ==> v == w
  {
    assert Text(Domain.WORKING)[0] == 'W' && Text(Domain.VOTEYES)[0] == 'V';
    assert Text(Domain.COMMIT)[0] == 'C' && Text(Domain.ABORT)[0] == 'A';
  }

  /** The calls the protocols make never reach the DBMS's undefined-decision throw, and do to the stored
      text what the protocols' transition systems do to the word. */
  lemma CallsAgree(current: Domain.Word, data: Domain.Word)
    requires data != Domain.WORKING
    ensures DB.TxOnce(Text(current), Text(data)) == DB.Ok(Text(Domain.Once(current, data)))
    ensures DB.TxWrite(Text(current), Text(data)) == DB.Ok(Text(data))
  {
    TextsDiffer(current, Domain.WORKING);
  }
}
