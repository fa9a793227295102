/** The list of the hosts of a transaction, as text. */
module TransactionConfig {

  predicate Space(c: char) {
    c == ' ' || c == '\t' || c == '\n' || c == '\r' || c == '\U{0b}' || c == '\U{0c}'
  }

  predicate IsWord(s: string) {
    s != "" && forall c :: c in " \t\n\r\U{0b}\U{0c}" ==> c !in s
  }

  /** `ss >> word`: skip white space, then read up to the next white space. */
  function Skip(s: string): (r: string)
    ensures |r| <= |s|
    ensures r != "" ==> !Space(r[0])
  {
    if s != "" && Space(s[0]) then Skip(s[1..]) else s
  }

  function WordEnd(s: string): (k: nat)
    ensures k <= |s|
    ensures forall i :: 0 <= i < k ==> !Space(s[i])
    ensures k < |s| ==> Space(s[k])
  {
    if s == "" || Space(s[0]) then 0 else 1 + WordEnd(s[1..])
  }

  function Word(s: string): string {
    Skip(s)[..WordEnd(Skip(s))]
  }

  function AfterWord(s: string): (r: string)
    ensures Word(s) != "" ==> |r| < |s|
  {
    Skip(s)[WordEnd(Skip(s))..]
  }

  /** All the words of a text. */
  function Words(s: string): seq<string>
    decreases |s|
  {
    if Word(s) == "" then [] else [Word(s)] + Words(AfterWord(s))
  }

  function Coordinator(words: seq<string>): string {
    if words == [] then "" else words[0]
  }

  function Participants(words: seq<string>): seq<string> {
    if words == [] then [] else words[1..]
  }

  /** to_string: every host is followed by a blank. */
  function Text(coordinator: string, participants: seq<string>): string {
    if participants == [] then coordinator + " "
    else Text(coordinator, participants[..|participants| - 1]) + participants[|participants| - 1] + " "
  }

  /** The characters a list of hosts takes up in that text. */
  function Total(hosts: seq<string>): nat {
    if hosts == [] then 0 else |hosts[0]| + 1 + Total(hosts[1..])
  }

  lemma {:induction false} TextLength(coordinator: string, participants: seq<string>)
    ensures |Text(coordinator, participants)| == |coordinator| + 1 + Total(participants)
    decreases |participants|
  {
    if participants != [] {
      TextFront(coordinator, participants);
      TextLength(participants[0], participants[1..]);
    }
  }

  class TransactionConfig {
    var coordinator: string
    var participants: seq<string>
    var txid: nat

    constructor (text: string, id: nat)
      ensures coordinator == Coordinator(Words(text)) && participants == Participants(Words(text)) && txid == id
    {
      coordinator, participants, txid := Word(text), [], id;
      new;
      var ss := AfterWord(text);
      if coordinator == "" {
        return;
      }
      var node := Word(ss);
      while node != ""
        invariant node == Word(ss) && txid == id && coordinator == Word(text)
        invariant Words(text) == [coordinator] + participants + Words(ss)
        decreases |ss|
      {
        participants := participants + [node];
        ss := AfterWord(ss);
        node := Word(ss);
      }
    }

    method ToText() returns (tmp: string)
      ensures tmp == Text(coordinator, participants)
    {
      tmp := coordinator + " ";
      for i := 0 to |participants|
        invariant tmp == Text(coordinator, participants[..i])
      {
        tmp := tmp + participants[i] + " ";
        assert participants[..i + 1][..i] == participants[..i];
      }
      assert participants[..|participants|] == participants;
    }
  }

  lemma {:induction false} WordsAreWords(s: string)
    ensures forall i :: 0 <= i < |Words(s)| ==> IsWord(Words(s)[i])
    decreases |s|
  {
    if Word(s) != "" {
      WordsAreWords(AfterWord(s));
    }
  }

  lemma {:induction false} WordEndIs(w: string, rest: string)
    requires forall i :: 0 <= i < |w| ==> !Space(w[i])
    ensures WordEnd(w + " " + rest) == |w|
  {
    if w != "" {
      WordEndIs(w[1..], rest);
      assert (w + " " + rest)[1..] == w[1..] + " " + rest;
    }
  }

  lemma {:induction false} SkipBlank(s: string)
    ensures Words(" " + s) == Words(s)
  {
    assert (" " + s)[1..] == s;
    assert Skip(" " + s) == Skip(s);
  }

  lemma WordsStep(w: string, rest: string)
    requires IsWord(w)
    ensures Words(w + " " + rest) == [w] + Words(rest)
  {
    var s := w + " " + rest;
    assert forall i :: 0 <= i < |w| ==> w[i] in w;
    assert !Space(w[0]);
    WordEndIs(w, rest);
    assert Skip(s) == s && s[..|w|] == w && s[|w|..] == " " + rest;
    SkipBlank(rest);
  }

  lemma {:induction false} TextFront(coordinator: string, participants: seq<string>)
    requires participants != []
    ensures Text(coordinator, participants) == coordinator + " " + Text(participants[0], participants[1..])
  {
    if |participants| == 1 {
      assert participants[..0] == [] && participants[1..] == [];
    } else {
      var front := participants[..|participants| - 1];
      TextFront(coordinator, front);
      assert participants[1..][..|participants| - 2] == front[1..];
    }
  }

  lemma {:induction false} TextWords(coordinator: string, participants: seq<string>)
    requires IsWord(coordinator) && forall i :: 0 <= i < |participants| ==> IsWord(participants[i])
    ensures Words(Text(coordinator, participants)) == [coordinator] + participants
    decreases |participants|
  {
    if participants == [] {
      WordsStep(coordinator, "");
      assert coordinator + " " + "" == coordinator + " ";
      assert Words("") == [];
    } else {
      TextFront(coordinator, participants);
      WordsStep(coordinator, Text(participants[0], participants[1..]));
      TextWords(participants[0], participants[1..]);
      assert participants == [participants[0]] + participants[1..];
    }
  }

  /** Printing a configuration and parsing it gives it back exactly when all its hosts are words, or
      there are none at all. */
  lemma RoundTripIff(coordinator: string, participants: seq<string>)
    ensures var words := Words(Text(coordinator, participants));
      Coordinator(words) == coordinator && Participants(words) == participants
      <==>
      || (IsWord(coordinator) && forall i :: 0 <= i < |participants| ==> IsWord(participants[i]))
      || (coordinator == "" && participants == [])
  {
    var words := Words(Text(coordinator, participants));
    WordsAreWords(Text(coordinator, participants));
    if IsWord(coordinator) && forall i :: 0 <= i < |participants| ==> IsWord(participants[i]) {
      TextWords(coordinator, participants);
    } else if coordinator == "" && participants == [] {
      assert "" + " " == " ";
      assert " "[1..] == "";
      assert Skip(" ") == "";
    }
  }
}
