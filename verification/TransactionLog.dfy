/** The simulated DBMS: transaction logs, data logs, and the manager that keeps one pair per address. */
module TransactionLog {

  datatype Result<+T> = Ok(value: T) | Thrown

  /** Where a log lives. The logs know theirs only for the proof that no two addresses share a log. */
  datatype Address = Address(txId: nat, clientId: string)

  /** The contents of a transaction log before anybody writes it. */
  const WORKING := "WORKING"

  predicate Defined(data: string) {
    data == "ABORT" || data == "COMMIT" || data == "VOTEYES"
  }

  /** What the three calls return and leave behind, for a transaction log. */
  function TxWrite(decision: string, data: string): Result<string> {
    if Defined(data) then Ok(data) else Thrown
  }

  function TxOnce(decision: string, data: string): Result<string> {
    if decision != WORKING then Ok(decision)
    else if Defined(data) then Ok(data) else Thrown
  }

  class TransactionLog {
    var decision: string
    ghost const home: Address

    constructor (ghost home: Address)
      ensures decision == WORKING && this.home == home
    {
      decision := WORKING;
      this.home := home;
    }

    method LOG_READ() returns (r: string)
      ensures r == decision
    {
      r := decision;
    }

    /** Overwrites whatever is there, unless the data is not a decision. */
    method LOG_WRITE(data: string) returns (r: Result<string>)
      modifies this`decision
      ensures r == TxWrite(old(decision), data)
      ensures r == if data in {"ABORT", "COMMIT", "VOTEYES"} then Ok(data) else Thrown
      ensures decision == if r.Ok? then data else old(decision)
    {
      if data != "ABORT" && data != "COMMIT" && data != "VOTEYES" {
        return Thrown;
      }
      decision := data;
      return Ok(decision);
    }

    /** Writes only if nobody has logged yet; bad data is noticed only then. */
    method LOG_ONCE(data: string) returns (r: Result<string>)
      modifies this`decision
      ensures r == TxOnce(old(decision), data)
      ensures old(decision) != "WORKING" ==> r == Ok(old(decision))
      ensures old(decision) == "WORKING" ==> r == if data in {"ABORT", "COMMIT", "VOTEYES"} then Ok(data) else Thrown
      ensures decision == if r.Ok? then r.value else old(decision)
    {
      if decision != WORKING {
        return Ok(decision);
      }
      if data != "ABORT" && data != "COMMIT" && data != "VOTEYES" {
        return Thrown;
      }
      decision := data;
      return Ok(decision);
    }
  }

  /** Entries are separated by semicolons. */
  function Appended(entries: string, data: string): string {
    (if entries != "" then entries + ";" else entries) + data
  }

  class DataLog {
    var dataLogEntries: string
    ghost const home: Address

    constructor (ghost home: Address)
      ensures dataLogEntries == "" && this.home == home
    {
      dataLogEntries := "";
      this.home := home;
    }

    method LOG_READ() returns (r: string)
      ensures r == dataLogEntries
    {
      r := dataLogEntries;
    }

    method LOG_WRITE(data: string) returns (r: Result<string>)
      modifies this`dataLogEntries
      ensures r == Ok(data) && dataLogEntries == Appended(old(dataLogEntries), data)
      ensures dataLogEntries == if old(dataLogEntries) == "" then data else old(dataLogEntries) + ";" + data
    {
      if dataLogEntries != "" {
        dataLogEntries := dataLogEntries + ";";
      }
      dataLogEntries := dataLogEntries + data;
      return Ok(data);
    }

    method LOG_ONCE(data: string) returns (r: Result<string>)
      ensures r == Thrown
    {
      return Thrown;
    }
  }
}
