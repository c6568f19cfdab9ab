/** Teams of Pikmin ids, as comma-separated text and as lists. */
module DispatchTeams {

  predicate Forbidden(c: char) {
    c == '\t' || c == '\r' || c == '\n' || c == '<' || c == '>'
  }

  predicate GoodId(id: string) {
    id != "" && forall k :: 0 <= k < |id| ==> !Forbidden(id[k])
  }

  predicate NoComma(id: string) {
    forall k :: 0 <= k < |id| ==> id[k] != ','
  }

  predicate Distinct(ids: seq<string>) {
    forall i, j :: 0 <= i < j < |ids| ==> ids[i] != ids[j]
  }

  /** A list of ids that may be sent out together. */
  predicate Team(ids: seq<string>) {
    1 <= |ids| <= 100 && Distinct(ids) && forall k :: 0 <= k < |ids| ==> GoodId(ids[k]) && NoComma(ids[k])
  }

  function Join(ids: seq<string>): string {
    if ids == [] then ""
    else if |ids| == 1 then ids[0]
    else ids[0] + "," + Join(ids[1..])
  }

  /** The index of the first comma, or the length. */
  function Comma(s: string): (n: nat)
    ensures n <= |s| && NoComma(s[..n]) && (n < |s| ==> s[n] == ',')
  {
    if s == "" || s[0] == ',' then 0
    else
      var n := 1 + Comma(s[1..]);
      assert s[..n] == [s[0]] + s[1..][..n - 1];
      n
  }

  /** The parts between the commas: one more than there are commas. */
  function Split(s: string): (parts: seq<string>)
    ensures parts != [] && forall k :: 0 <= k < |parts| ==> NoComma(parts[k])
    decreases |s|
  {
    var n := Comma(s);
    if n == |s| then [s] else [s[..n]] + Split(s[n + 1..])
  }

  /** The ids of a text, or none if the text is not exactly a team. */
  function TeamOf(csv: string): (ids: seq<string>) {
    if Team(Split(csv)) then Split(csv) else []
  }

  lemma {:induction false} JoinSplit(s: string)
    ensures Join(Split(s)) == s
    decreases |s|
  {
    hide Join, Comma;
    var n := Comma(s);
    if n == |s| {
      JoinOne(s);
    } else {
      var rest := s[n + 1..];
      JoinSplit(rest);
      JoinCons(s[..n], Split(rest));
      assert s[..n] + "," + rest == s;
    }
  }

  lemma JoinOne(id: string)
    ensures Join([id]) == id
  {
  }

  lemma JoinCons(id: string, rest: seq<string>)
    requires rest != []
    ensures Join([id] + rest) == id + "," + Join(rest)
  {
    assert ([id] + rest)[1..] == rest;
  }

  lemma {:induction false} CommaAfter(id: string, rest: string)
    requires NoComma(id)
    ensures Comma(id + "," + rest) == |id|
  {
    var s := id + "," + rest;
    if id != "" {
      assert s[1..] == id[1..] + "," + rest;
      CommaAfter(id[1..], rest);
    }
  }

  lemma {:induction false} NoCommaEnds(id: string)
    requires NoComma(id)
    ensures Comma(id) == |id|
  {
    if id != "" {
      NoCommaEnds(id[1..]);
    }
  }

  lemma {:induction false} SplitJoin(ids: seq<string>)
    requires ids != [] && forall k :: 0 <= k < |ids| ==> NoComma(ids[k])
    ensures Split(Join(ids)) == ids
  {
    if |ids| == 1 {
      NoCommaEnds(ids[0]);
    } else {
      var rest := Join(ids[1..]);
      CommaAfter(ids[0], rest);
      assert Join(ids)[..|ids[0]|] == ids[0] && Join(ids)[|ids[0]| + 1..] == rest;
      SplitJoin(ids[1..]);
    }
  }

  /** A text gives a non-empty list exactly when it is the join of that list and the list is a team. */
  lemma TeamOfIsExact(csv: string, ids: seq<string>)
    requires ids != []
    ensures TeamOf(csv) == ids <==> csv == Join(ids) && Team(ids)
  {
    if Team(ids) { SplitJoin(ids); }
    JoinSplit(csv);
  }

  /** The same, character by character: what a text has to be to give a list. */
  lemma TeamTextIs(csv: string, ids: seq<string>)
    requires ids != []
    ensures TeamOf(csv) == ids
      <==> && csv == Join(ids) && |ids| <= 100
           && (forall i, j :: 0 <= i < |ids| && 0 <= j < |ids| && ids[i] == ids[j] ==> i == j)
           && forall k :: 0 <= k < |ids| ==> |ids[k]| >= 1 && forall n :: 0 <= n < |ids[k]| ==> ids[k][n] !in "\t\r\n<>,"
  {
    hide TeamOf, Join;
    TeamOfIsExact(csv, ids);
    forall id ensures GoodId(id) && NoComma(id) <==> |id| >= 1 && forall n :: 0 <= n < |id| ==> id[n] !in "\t\r\n<>," {
      IdIs(id);
    }
    assert forall k :: 0 <= k < |ids| ==> (GoodId(ids[k]) && NoComma(ids[k]) <==>
             |ids[k]| >= 1 && forall n :: 0 <= n < |ids[k]| ==> ids[k][n] !in "\t\r\n<>,");
  }

  lemma IdIs(id: string)
    ensures GoodId(id) && NoComma(id) <==> |id| >= 1 && forall n :: 0 <= n < |id| ==> id[n] !in "\t\r\n<>,"
  {
  }

  // ---------- the loop ----------

  method FindComma(csv: string, begin: nat) returns (end: nat)
    requires begin <= |csv|
    ensures end == begin + Comma(csv[begin..])
  {
    end := begin;
    while end < |csv| && csv[end] != ','
      invariant begin <= end <= |csv|
      invariant begin + Comma(csv[begin..]) == end + Comma(csv[end..])
    {
      assert csv[end..][1..] == csv[end + 1..];
      end := end + 1;
    }
  }

  lemma SplitAt(csv: string, begin: nat, end: nat)
    requires begin <= |csv| && end == begin + Comma(csv[begin..])
    ensures Split(csv[begin..]) == if end == |csv| then [csv[begin..end]] else [csv[begin..end]] + Split(csv[end + 1..])
  {
    var s := csv[begin..];
    assert s[..end - begin] == csv[begin..end];
    assert end == |csv| ==> s == csv[begin..end];
    if end < |csv| { assert s[end - begin + 1..] == csv[end + 1..]; }
  }

  lemma BadPart(ids: seq<string>, id: string, rest: seq<string>)
    requires !GoodId(id) || id in ids || |ids| >= 100
    ensures !Team(ids + [id] + rest)
  {
    var parts := ids + [id] + rest;
    assert parts[|ids|] == id;
    if id in ids {
      var k :| 0 <= k < |ids| && ids[k] == id;
      assert parts[k] == parts[|ids|];
    }
  }

  lemma EmptyLast(ids: seq<string>)
    ensures !Team(ids + Split(""))
  {
    assert (ids + Split(""))[|ids|] == "";
  }

  predicate Started(ids: seq<string>) {
    |ids| <= 100 && Distinct(ids) && forall k :: 0 <= k < |ids| ==> GoodId(ids[k]) && NoComma(ids[k])
  }

  lemma NoneYet()
    ensures Started([])
  {
  }

  /** Reads ids one by one and gives up at the first bad one. */
  method DispatchIds(csv: string) returns (ids: seq<string>)
    ensures ids == TeamOf(csv)
  {
    hide Split, GoodId, NoComma, Comma, Distinct;
    ids := [];
    var unique: set<string> := {};
    var begin := 0;
    assert csv[0..] == csv;
    NoneYet();
    while begin < |csv|
      invariant 0 <= begin <= |csv|
      invariant Split(csv) == ids + Split(csv[begin..])
      invariant Started(ids) && unique == set id | id in ids
      decreases |csv| - begin
    {
      var end := FindComma(csv, begin);
      SplitAt(csv, begin, end);
      var id := csv[begin..end];
      var rest := if end == |csv| then [] else Split(csv[end + 1..]);
      assert Split(csv) == ids + [id] + rest;
      if !GoodId(id) || id in unique || |ids| >= 100 {
        BadPart(ids, id, rest);
        return [];
      }
      AnotherPart(csv, ids, id, rest);
      unique := unique + {id};
      ids := ids + [id];
      if end == |csv| {
        assert Split(csv) == ids;
        return ids;
      }
      begin := end + 1;
    }
    assert csv[begin..] == "";
    EmptyLast(ids);
    return [];
  }

  lemma AnotherPart(csv: string, ids: seq<string>, id: string, rest: seq<string>)
    requires Started(ids) && GoodId(id) && id !in ids && |ids| < 100 && Split(csv) == ids + [id] + rest
    ensures Started(ids + [id])
  {
    hide GoodId;
    assert NoComma(id) by { assert Split(csv)[|ids|] == id; }
  }

  // ---------- equal teams ----------

  function Ids(ids: seq<string>): set<string> {
    set id | id in ids
  }

  predicate SameTeam(a: seq<string>, b: seq<string>) {
    a != [] && |a| == |b| && Ids(a) == Ids(b)
  }
}
