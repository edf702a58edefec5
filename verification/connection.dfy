/** Connection acceptance: the quota threshold a key must meet, the candidate
    keys read from a key file, and the key `autoconnect` settles on. */
module Connection {
  import opened Base
  import opened Strings

  /** What `api.info()` gives for a key: its `query_credits` field, if it has
      one, or the message of the exception it raises. */
  datatype InfoAnswer = Info(credits: Option<int>) | InfoFailed(message: string)

  /** A key is accepted when `info()` answers and its credits (0 when the
      field is missing) reach the threshold. */
  predicate Qualifies(answer: InfoAnswer, minRequests: int) {
    answer.Info? && answer.credits.GetOr(0) >= minRequests
  }

  /** A non-empty string with no whitespace at either end. */
  predicate IsStripped(s: string) {
    s != "" && !IsSpace(s[0]) && !IsSpace(s[|s| - 1])
  }

  /** A strip that leaves something leaves it without outer whitespace. */
  lemma StripEnds(s: string)
    ensures Strip(s) != "" ==> IsStripped(Strip(s))
  {
    var t := TrimStart(s);
    if Strip(s) != "" {
      assert Strip(s)[0] == t[0];
    }
  }

  /** `line.strip()` for every line of a key file. A line is a piece of the
      file's text between newlines; the newline itself is whitespace and goes
      with the strip. */
  function StrippedLines(lines: seq<string>): (ss: seq<string>)
    ensures |ss| == |lines| && forall i :: 0 <= i < |lines| ==> ss[i] == Strip(lines[i])
  {
    seq(|lines|, i requires 0 <= i < |lines| => Strip(lines[i]))
  }

  predicate NonEmpty(s: string) {
    s != ""
  }

  /** `[line.strip() for line in f if line.strip()]`: the candidate keys in
      file order. */
  function KeyLines(lines: seq<string>): seq<string> {
    Filter(StrippedLines(lines), NonEmpty)
  }

  /** The candidates are, in file order, the stripped lines that are not
      empty; each has no whitespace at either end. */
  lemma KeyLinesMembers(lines: seq<string>, key: string)
    ensures IsSubsequence(KeyLines(lines), StrippedLines(lines))
    ensures key in KeyLines(lines) <==> key != "" && exists i :: 0 <= i < |lines| && Strip(lines[i]) == key
    ensures key in KeyLines(lines) ==> IsStripped(key)
  {
    var ss := StrippedLines(lines);
    FilterIsSubsequence(ss, NonEmpty);
    FilterMembers(ss, NonEmpty, key);
    if key in ss {
      var i :| 0 <= i < |ss| && ss[i] == key;
      StripEnds(lines[i]);
    }
  }

  /** The position of the first key that qualifies, if any. */
  function FirstQualifying(keys: seq<string>, info: string -> InfoAnswer, minRequests: int): (r: Option<nat>)
    ensures r.Some? ==>
              && r.value < |keys|
              && Qualifies(info(keys[r.value]), minRequests)
              && forall j :: 0 <= j < r.value ==> !Qualifies(info(keys[j]), minRequests)
    ensures r.None? ==> forall j :: 0 <= j < |keys| ==> !Qualifies(info(keys[j]), minRequests)
    decreases |keys|
  {
    if keys == [] then None
    else if Qualifies(info(keys[0]), minRequests) then Some(0)
    else
      match FirstQualifying(keys[1..], info, minRequests)
      case None => None
      case Some(i) => Some(i + 1)
  }

  /** The first qualifying key is the one that qualifies after a run of keys
      that do not. */
  lemma {:induction false} FirstQualifyingAt(keys: seq<string>, info: string -> InfoAnswer, minRequests: int, i: nat)
    requires i < |keys| && Qualifies(info(keys[i]), minRequests)
    requires forall j :: 0 <= j < i ==> !Qualifies(info(keys[j]), minRequests)
    ensures FirstQualifying(keys, info, minRequests) == Some(i)
    decreases i
  {
    if i > 0 {
      FirstQualifyingAt(keys[1..], info, minRequests, i - 1);
    }
  }

  /** The `for api_key in api_keys` loop of `autoconnect`: asks for each
      key's credits in turn and stops at the first key that qualifies; a key
      whose `info()` raises is skipped. */
  method TryKeys(keys: seq<string>, info: string -> InfoAnswer, minRequests: int) returns (found: Option<nat>)
    ensures found == FirstQualifying(keys, info, minRequests)
  {
    for i := 0 to |keys|
      invariant forall j :: 0 <= j < i ==> !Qualifies(info(keys[j]), minRequests)
    {
      var answer := info(keys[i]);
      if answer.Info? && answer.credits.GetOr(0) >= minRequests {
        FirstQualifyingAt(keys, info, minRequests, i);
        return Some(i);
      }
    }
    return None;
  }

  /** Keys after the chosen one are never consulted: appending keys to the
      file does not change a choice already made. */
  lemma {:induction false} FirstQualifyingPrefix(keys: seq<string>, more: seq<string>, info: string -> InfoAnswer, minRequests: int)
    requires FirstQualifying(keys, info, minRequests).Some?
    ensures FirstQualifying(keys + more, info, minRequests) == FirstQualifying(keys, info, minRequests)
    decreases |keys|
  {
    assert (keys + more)[0] == keys[0];
    if !Qualifies(info(keys[0]), minRequests) {
      assert (keys + more)[1..] == keys[1..] + more;
      FirstQualifyingPrefix(keys[1..], more, info, minRequests);
    }
  }
}
