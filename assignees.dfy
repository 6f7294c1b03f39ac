/** The assignees column: usernames joined with ", " into a buffer of
    ASSIGNEES_WIDTH + 1 characters, cut off at ASSIGNEES_WIDTH, then "N/A"
    when nothing was accumulated or one trailing space when there is room. */
module Assignees {
  import opened CStrings
  import opened Json
  import opened Table

  /** The username an assignee contributes: its `username` member when that
      member is a string; otherwise the assignee contributes nothing. */
  function UsernameOf(assignee: Json): (r: Option<CString>)
  {
    StringValue(ObjectGet(assignee, "username"))
  }

  /** The elements the loop visits: those of the `assignees` member when it
      is an array, none otherwise. */
  function AssigneeItems(field: Option<Json>): (r: seq<Json>)
    ensures r != [] ==> field.Some? && field.value.JArray? && r == field.value.elems
  {
    if field.Some? && field.value.JArray? then field.value.elems else []
  }

  /** The unbounded accumulation, one assignee at a time: ", " goes before a
      username only when something has already been accumulated. An empty
      username is not skipped: it adds nothing when first, a bare ", " later. */
  function Joined(items: seq<Json>): CString
  {
    if items == [] then ""
    else
      var acc := Joined(items[..|items| - 1]);
      match UsernameOf(items[|items| - 1])
      case None => acc
      case Some(u) => Step(acc, u)
  }

  // ---- An independent reference: the usual separator join ----

  /** The usernames of the assignees that have one, in order. */
  function Usernames(items: seq<Json>): seq<CString>
  {
    if items == [] then []
    else
      (match UsernameOf(items[0]) case Some(u) => [u] case None => []) + Usernames(items[1..])
  }

  /** xs without its leading empty strings. */
  function DropLeadingEmpty(xs: seq<CString>): (r: seq<CString>)
    ensures r == [] || r[0] != ""
  {
    if xs != [] && xs[0] == "" then DropLeadingEmpty(xs[1..]) else xs
  }

  /** xs[0] + sep + xs[1] + sep + ... + xs[|xs| - 1]. */
  function JoinWith(sep: CString, xs: seq<CString>): CString
  {
    if xs == [] then ""
    else if |xs| == 1 then xs[0]
    else xs[0] + sep + JoinWith(sep, xs[1..])
  }

  lemma {:induction false} UsernamesAppend(items: seq<Json>, last: Json)
    ensures Usernames(items + [last])
         == Usernames(items) + (match UsernameOf(last) case Some(u) => [u] case None => [])
  {
    if items != [] {
      assert (items + [last])[1..] == items[1..] + [last];
      UsernamesAppend(items[1..], last);
    } else {
      assert Usernames([last][1..]) == [];
    }
  }

  lemma {:induction false} DropLeadingEmptyAppend(xs: seq<CString>, u: CString)
    ensures DropLeadingEmpty(xs + [u])
         == if DropLeadingEmpty(xs) == [] then DropLeadingEmpty([u]) else DropLeadingEmpty(xs) + [u]
  {
    if xs != [] {
      assert (xs + [u])[1..] == xs[1..] + [u];
      if xs[0] == "" {
        DropLeadingEmptyAppend(xs[1..], u);
      }
    }
  }

  lemma {:induction false} JoinWithAppend(sep: CString, xs: seq<CString>, u: CString)
    requires xs != []
    ensures JoinWith(sep, xs + [u]) == JoinWith(sep, xs) + sep + u
  {
    if |xs| > 1 {
      assert (xs + [u])[1..] == xs[1..] + [u];
      JoinWithAppend(sep, xs[1..], u);
    }
  }

  lemma {:induction false} JoinWithStartsWithFirst(sep: CString, xs: seq<CString>)
    requires xs != []
    ensures xs[0] <= JoinWith(sep, xs)
  {
  }

  /** The accumulation is the ", "-join of the usernames, once the leading
      empty usernames are dropped. */
  lemma {:induction false} JoinedIsJoin(items: seq<Json>)
    ensures Joined(items) == JoinWith(", ", DropLeadingEmpty(Usernames(items)))
  {
    if items != [] {
      var init, last := items[..|items| - 1], items[|items| - 1];
      assert items == init + [last];
      JoinedIsJoin(init);
      UsernamesAppend(init, last);
      var d := DropLeadingEmpty(Usernames(init));
      match UsernameOf(last)
      case None =>
        assert Usernames(items) == Usernames(init);
      case Some(u) =>
        assert Usernames(items) == Usernames(init) + [u];
        DropLeadingEmptyAppend(Usernames(init), u);
        if d != [] {
          JoinWithStartsWithFirst(", ", d);
          JoinWithAppend(", ", d, u);
        }
    }
  }

  /** Nothing is accumulated exactly when every username present is empty
      (in particular when there is none). */
  lemma NothingAccumulated(items: seq<Json>)
    ensures Joined(items) == "" <==> forall u :: u in Usernames(items) ==> u == ""
  {
    JoinedIsJoin(items);
    var us := Usernames(items);
    AllEmptyDropped(us);
    var d := DropLeadingEmpty(us);
    if d != [] {
      JoinWithStartsWithFirst(", ", d);
    }
  }

  lemma {:induction false} AllEmptyDropped(xs: seq<CString>)
    ensures DropLeadingEmpty(xs) == [] <==> forall u :: u in xs ==> u == ""
  {
    if xs != [] {
      if xs[0] == "" {
        assert forall u :: u in xs <==> u == xs[0] || u in xs[1..];
        AllEmptyDropped(xs[1..]);
      } else {
        assert xs[0] in xs;
      }
    }
  }

  /** Later assignees only extend the accumulation. */
  lemma {:induction false} JoinedGrows(items: seq<Json>, k: nat)
    requires k <= |items|
    ensures Joined(items[..k]) <= Joined(items)
    decreases |items|
  {
    if k < |items| {
      var init := items[..|items| - 1];
      assert init[..k] == items[..k];
      JoinedGrows(init, k);
    } else {
      assert items[..k] == items;
    }
  }

  lemma TakeAppend(x: string, y: string, n: nat)
    requires |x| <= n
    ensures Take(x + y, n) == x + Take(y, n - |x|)
  {
  }

  lemma TakeOfPrefix(x: string, y: string, n: nat)
    requires x <= y && n <= |x|
    ensures Take(x, n) == Take(y, n)
  {
  }

  // ---- The rendered column ----

  /** The final step on the bounded accumulation acc: "N/A" when it is
      empty, one trailing space when it is shorter than the column. */
  function FinishAssignees(acc: CString): (r: CString)
    requires |acc| <= ASSIGNEES_WIDTH
    ensures 0 < |r| <= ASSIGNEES_WIDTH
    ensures acc != "" ==> acc <= r
  {
    if acc == "" then "N/A"
    else if |acc| < ASSIGNEES_WIDTH then acc + " "
    else acc
  }

  /** The assignees column of a task whose assignee array is items. */
  function AssigneesField(items: seq<Json>): (r: CString)
    ensures 0 < |r| <= ASSIGNEES_WIDTH
  {
    FinishAssignees(Take(Joined(items), ASSIGNEES_WIDTH))
  }

  /** The column in terms of the usual join J of the usernames (leading empty
      ones dropped): "N/A" exactly when J is empty; J and one space when J is
      shorter than the column; otherwise the first ASSIGNEES_WIDTH characters
      of J. It never exceeds the column. */
  lemma AssigneesFieldSpec(items: seq<Json>)
    ensures var j, r := JoinWith(", ", DropLeadingEmpty(Usernames(items))), AssigneesField(items);
      && |r| <= ASSIGNEES_WIDTH
      && (r == "N/A" <==> j == "")
      && (j != "" && |j| < ASSIGNEES_WIDTH ==> r == j + " ")
      && (|j| >= ASSIGNEES_WIDTH ==> r == j[..ASSIGNEES_WIDTH])
  {
    JoinedIsJoin(items);
    var u := Joined(items);
    var acc := Take(u, ASSIGNEES_WIDTH);
    if u != "" && |acc| < ASSIGNEES_WIDTH {
      assert AssigneesField(items)[|acc|] == ' ';
    }
  }

  /** The unbounded accumulation after one more username u. */
  function Step(acc: CString, u: CString): CString
  {
    if acc == "" then u else acc + ", " + u
  }

  /** The same step on the buffer: ", " when something is already there,
      then u, each cut to the room left in the column. */
  function BoundedStep(acc: CString, u: CString): (r: CString)
    requires |acc| < ASSIGNEES_WIDTH
    ensures |r| <= ASSIGNEES_WIDTH
  {
    var withSep := if acc != "" then acc + Take(", ", ASSIGNEES_WIDTH - |acc|) else acc;
    if |withSep| < ASSIGNEES_WIDTH then withSep + Take(u, ASSIGNEES_WIDTH - |withSep|) else withSep
  }

  /** Appending to the bounded accumulation keeps it the prefix of the
      unbounded one. */
  lemma BoundedStepIsPrefix(acc: CString, u: CString)
    requires |acc| < ASSIGNEES_WIDTH
    ensures BoundedStep(acc, u) == Take(Step(acc, u), ASSIGNEES_WIDTH)
  {
    if acc != "" {
      TakeAppend(acc, ", " + u, ASSIGNEES_WIDTH);
      assert acc + ", " + u == acc + (", " + u);
      var room := ASSIGNEES_WIDTH - |acc|;
      if room > 2 {
        TakeAppend(", ", u, room);
      }
    }
  }

  /** One pass of the loop body for an assignee whose username is u: the
      two strncat calls, with current_len grown by what each appended. */
  method AppendUsername(buf: array<char>, currentLen: nat, u: CString) returns (newLen: nat)
    requires buf.Length == ASSIGNEES_WIDTH + 1
    requires currentLen < ASSIGNEES_WIDTH && HoldsString(buf, currentLen)
    modifies buf
    ensures HoldsString(buf, newLen)
    ensures buf[..newLen] == BoundedStep(old(buf[..currentLen]), u)
  {
    ghost var acc := buf[..currentLen];
    newLen := currentLen;
    if newLen > 0 {
      var remaining := ASSIGNEES_WIDTH - newLen;
      if remaining > 0 {
        StrNCat(buf, ", ", remaining, newLen);
        newLen := newLen + Min(remaining, 2);
        acc := acc + Take(", ", remaining);
      }
    }
    assert buf[..newLen] == acc;
    var remaining := ASSIGNEES_WIDTH - newLen;
    if remaining > 0 {
      StrNCat(buf, u, remaining, newLen);
      newLen := newLen + Min(remaining, |u|);
      acc := acc + Take(u, remaining);
    }
  }

  /** The fix-up after the loop: "N/A" copied in when the buffer is empty,
      otherwise one space written after the accumulation when there is room. */
  method FinishBuffer(buf: array<char>, currentLen: nat) returns (cell: CString)
    requires buf.Length == ASSIGNEES_WIDTH + 1
    requires currentLen <= ASSIGNEES_WIDTH && HoldsString(buf, currentLen)
    modifies buf
    ensures cell == FinishAssignees(old(buf[..currentLen]))
    ensures HoldsString(buf, |cell|) && buf[..|cell|] == cell
  {
    ghost var acc := buf[..currentLen];
    if buf[0] == '\0' {
      StrNCpy(buf, "N/A", ASSIGNEES_WIDTH);
      buf[ASSIGNEES_WIDTH] := '\0';
      assert buf[..][3] == '\0';
    } else if currentLen < ASSIGNEES_WIDTH {
      buf[currentLen] := ' ';
      buf[currentLen + 1] := '\0';
      assert buf[..][currentLen + 1] == '\0';
    } else {
      assert buf[..][currentLen] == '\0';
    }
    var len := StrLen(buf);
    cell := buf[..len];
    if acc == "" {
      assert len == 3;
    } else if currentLen < ASSIGNEES_WIDTH {
      assert len == currentLen + 1;
    } else {
      assert len == currentLen;
    }
  }

  /** The accumulation over one more assignee. */
  lemma JoinedSnoc(arr: seq<Json>, j: nat)
    requires j < |arr|
    ensures UsernameOf(arr[j]).None? ==> Joined(arr[..j + 1]) == Joined(arr[..j])
    ensures UsernameOf(arr[j]).Some? ==>
      Joined(arr[..j + 1]) == Step(Joined(arr[..j]), UsernameOf(arr[j]).value)
  {
    assert arr[..j + 1][..j] == arr[..j];
  }

  /** The assignee loop of main on a buffer of ASSIGNEES_WIDTH + 1
      characters that starts empty, with the length counter current_len kept
      beside it: the buffer ends up holding the first ASSIGNEES_WIDTH
      characters of the unbounded accumulation. */
  method AccumulateAssignees(buf: array<char>, arr: seq<Json>) returns (currentLen: nat)
    requires buf.Length == ASSIGNEES_WIDTH + 1 && HoldsString(buf, 0)
    modifies buf
    ensures currentLen <= ASSIGNEES_WIDTH && HoldsString(buf, currentLen)
    ensures buf[..currentLen] == Take(Joined(arr), ASSIGNEES_WIDTH)
  {
    currentLen := 0;
    var j := 0;
    while j < |arr|
      invariant 0 <= j <= |arr|
      invariant currentLen < ASSIGNEES_WIDTH
      invariant HoldsString(buf, currentLen)
      invariant buf[..currentLen] == Take(Joined(arr[..j]), ASSIGNEES_WIDTH)
    {
      JoinedSnoc(arr, j);
      var username := UsernameOf(arr[j]);
      if username.Some? {
        ghost var before := Joined(arr[..j]);
        currentLen := AppendUsername(buf, currentLen, username.value);
        BoundedStepIsPrefix(before, username.value);
      }
      j := j + 1;
      if currentLen >= ASSIGNEES_WIDTH {
        JoinedGrows(arr, j);
        TakeOfPrefix(Joined(arr[..j]), Joined(arr), ASSIGNEES_WIDTH);
        return;
      }
    }
    assert arr[..j] == arr;
  }

  /** The assignee loop of main and the fix-up after it. */
  method BuildAssignees(field: Option<Json>) returns (cell: CString)
    ensures cell == AssigneesField(AssigneeItems(field))
  {
    var buf := new char[ASSIGNEES_WIDTH + 1];
    buf[0] := '\0';
    var currentLen: nat := 0;
    if field.Some? && field.value.JArray? && |field.value.elems| > 0 {
      currentLen := AccumulateAssignees(buf, field.value.elems);
    }
    cell := FinishBuffer(buf, currentLen);
  }
}
