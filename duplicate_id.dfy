/** Recovery of an existing document id from the backend's "already exists" error
    (main.py, upload_document_to_r2r). The pattern searched for is the regular
    expression `Document ([a-f0-9-]+) already exists`, evaluated as Python's
    `re.search` would: the leftmost position where it matches, and its first group. */
module DuplicateId {
  import opened Wrappers
  import opened Text

  const Opening: string := "Document "
  const Closing: string := " already exists"

  /** The character class `[a-f0-9-]`. */
  predicate IsIdChar(c: char)
  {
    ('a' <= c <= 'f') || ('0' <= c <= '9') || c == '-'
  }

  predicate IsDocumentId(id: string)
  {
    |id| > 0 && forall k :: 0 <= k < |id| ==> IsIdChar(id[k])
  }

  /** The longest prefix of `s` made of class characters (what a greedy `[a-f0-9-]+` consumes). */
  function IdRun(s: string): (r: string)
    ensures StartsWith(s, r)
    ensures forall k :: 0 <= k < |r| ==> IsIdChar(r[k])
    ensures |r| < |s| ==> !IsIdChar(s[|r|])
  {
    if s != [] && IsIdChar(s[0]) then [s[0]] + IdRun(s[1..]) else []
  }

  /** Whether the pattern matches starting at position `i`, and the group if so. Because
      the space that starts " already exists" is outside the class, the group can only be
      the whole maximal run: backtracking to a shorter run never succeeds. */
  function MatchAt(s: string, i: nat): Option<string>
    requires i <= |s|
  {
    if StartsWith(s[i..], Opening) then
      var run := IdRun(s[i + |Opening|..]);
      if |run| > 0 && StartsWith(s[i + |Opening| + |run|..], Closing) then Some(run) else None
    else None
  }

  /** `re.search` from position `i` onwards: the first position that matches. */
  function SearchFrom(s: string, i: nat): (r: Option<string>)
    requires i <= |s|
    ensures r.Some? ==> IsDocumentId(r.value)
    ensures r.Some? ==> exists j: nat :: i <= j <= |s| && OccursAt(s, Opening + r.value + Closing, j)
    decreases |s| - i
  {
    var m := MatchAt(s, i);
    if m.Some? then
      MatchFound(s, i);
      m
    else if i == |s| then None
    else SearchFrom(s, i + 1)
  }

  lemma MatchFound(s: string, i: nat)
    requires i <= |s| && MatchAt(s, i).Some?
    ensures IsDocumentId(MatchAt(s, i).value)
    ensures OccursAt(s, Opening + MatchAt(s, i).value + Closing, i)
  {
    var id := MatchAt(s, i).value;
    var j := i + |Opening|;
    StartsWithOccurs(s, Opening, i);
    StartsWithOccurs(s, id, j);
    StartsWithOccurs(s, Closing, j + |id|);
    OccursAtConcat(s, Opening, id, i);
    OccursAtConcat(s, Opening + id, Closing, i);
  }

  /** `re.search` semantics: a result is the group of the first position from `i` on where
      the pattern matches, and no result means it matches at no position from `i` on. */
  lemma {:induction false} SearchFromLeftmost(s: string, i: nat)
    requires i <= |s|
    ensures SearchFrom(s, i).Some? ==>
              exists j: nat :: i <= j <= |s| && MatchAt(s, j) == SearchFrom(s, i)
                               && forall k: nat :: i <= k < j ==> MatchAt(s, k).None?
    ensures SearchFrom(s, i).None? ==> forall j: nat :: i <= j <= |s| ==> MatchAt(s, j).None?
    decreases |s| - i
  {
    var m := MatchAt(s, i);
    if m.Some? {
      assert SearchFrom(s, i) == m;
    } else if i == |s| {
      assert SearchFrom(s, i) == None;
      forall j: nat | i <= j <= |s|
        ensures MatchAt(s, j).None?
      {
        assert j == i;
      }
    } else {
      assert SearchFrom(s, i) == SearchFrom(s, i + 1);
      SearchFromLeftmost(s, i + 1);
      if SearchFrom(s, i).Some? {
        var j: nat :| i + 1 <= j <= |s| && MatchAt(s, j) == SearchFrom(s, i + 1)
                       && forall k: nat :: i + 1 <= k < j ==> MatchAt(s, k).None?;
        forall k: nat | i <= k < j
          ensures MatchAt(s, k).None?
        {
          if k == i {
            assert MatchAt(s, k) == m;
          }
        }
      } else {
        forall j: nat | i <= j <= |s|
          ensures MatchAt(s, j).None?
        {
          if j == i {
            assert MatchAt(s, j) == m;
          }
        }
      }
    }
  }

  /** If the pattern matches nowhere from `i` on, the search finds nothing. */
  lemma {:induction false} SearchFromNone(s: string, i: nat)
    requires i <= |s|
    requires forall j: nat :: i <= j <= |s| ==> MatchAt(s, j).None?
    ensures SearchFrom(s, i) == None
    decreases |s| - i
  {
    if i < |s| {
      SearchFromNone(s, i + 1);
    }
  }

  /** If the pattern matches at `j`, the search from any earlier position finds a match
      at or before `j` (completeness of the leftmost search). */
  lemma {:induction false} SearchFromFinds(s: string, i: nat, j: nat)
    requires i <= j <= |s| && MatchAt(s, j).Some?
    ensures SearchFrom(s, i).Some?
    decreases j - i
  {
    if MatchAt(s, i).None? {
      SearchFromFinds(s, i + 1, j);
    }
  }

  /** The run of class characters at the start of `id + rest` is exactly `id` when `rest`
      starts with a character outside the class. */
  lemma {:induction false} IdRunOfId(id: string, rest: string)
    requires forall k :: 0 <= k < |id| ==> IsIdChar(id[k])
    requires |rest| > 0 && !IsIdChar(rest[0])
    ensures IdRun(id + rest) == id
  {
    if id != [] {
      assert (id + rest)[1..] == id[1..] + rest;
      IdRunOfId(id[1..], rest);
    } else {
      assert id + rest == rest;
    }
  }

  /** A well-formed pattern occurrence is recognised with exactly its id as the group. */
  lemma MatchAtOccurrence(s: string, i: nat, id: string)
    requires IsDocumentId(id)
    requires OccursAt(s, Opening + id + Closing, i)
    ensures MatchAt(s, i) == Some(id)
  {
    var j := i + |Opening|;
    OccursAtConcat(s, Opening + id, Closing, i);
    OccursAtConcat(s, Opening, id, i);
    StartsWithOccurs(s, Opening, i);
    StartsWithOccurs(s, Closing, j + |id|);
    OccursAtSuffix(s, id, j);
    var rest := s[j + |id|..];
    assert rest[0] == Closing[0] == ' ' by {
      assert s[j + |id|..j + |id| + |Closing|] == Closing;
    }
    IdRunOfId(id, rest);
  }

  /** An occurrence of the pattern makes the error text mention both "Document" and
      "already exists". */
  lemma PatternMentionsBoth(error: string, id: string, i: nat)
    requires OccursAt(error, Opening + id + Closing, i)
    ensures Contains(error, "Document") && Contains(error, "already exists")
  {
    OccursAtConcat(error, Opening + id, Closing, i);
    OccursAtConcat(error, Opening, id, i);
    assert Opening == "Document" + " ";
    OccursAtConcat(error, "Document", " ", i);
    assert Closing == " " + "already exists";
    OccursAtConcat(error, " ", "already exists", i + |Opening| + |id|);
  }

  /** The recovery step of upload_document_to_r2r's error handler: the error text must
      mention "already exists" (and "Document"), and the regular expression must match;
      otherwise nothing is recovered. */
  function RecoverDocumentId(error: string): (r: Option<string>)
    ensures !Contains(error, "already exists") ==> r == None
    ensures r.Some? ==> IsDocumentId(r.value) && Contains(error, Opening + r.value + Closing)
  {
    if Contains(error, "already exists") then
      if Contains(error, "Document") && Contains(error, "already exists") then SearchFrom(error, 0)
      else None
    else None
  }

  /** Round trip: the backend's message for an existing document, with anything after it,
      gives back that document's id. */
  lemma RecoverFromDuplicateMessage(id: string, rest: string)
    requires IsDocumentId(id)
    ensures RecoverDocumentId(Opening + id + Closing + rest) == Some(id)
  {
    var whole := Opening + id + Closing;
    var s := whole + rest;
    assert OccursAt(s, whole, 0) by {
      assert s[..|whole|] == whole;
    }
    MatchAtOccurrence(s, 0, id);
    PatternMentionsBoth(s, id, 0);
  }

  /** Completeness: whenever the error text contains a well-formed occurrence of the
      pattern, some id is recovered. */
  lemma RecoverWhenPatternOccurs(error: string, id: string, i: nat)
    requires IsDocumentId(id)
    requires OccursAt(error, Opening + id + Closing, i)
    ensures RecoverDocumentId(error).Some?
  {
    MatchAtOccurrence(error, i, id);
    PatternMentionsBoth(error, id, i);
    SearchFromFinds(error, 0, i);
  }

  /** The recovered id is the first capture: it is the group of a well-formed occurrence
      that starts no later than any other well-formed occurrence, and the occurrence at
      the same position, if any, has the same id. */
  lemma RecoverFirstOccurrence(error: string, other: string, j2: nat)
    requires RecoverDocumentId(error).Some?
    requires IsDocumentId(other) && OccursAt(error, Opening + other + Closing, j2)
    ensures exists j: nat :: j <= j2 && OccursAt(error, Opening + RecoverDocumentId(error).value + Closing, j)
                             && (j == j2 ==> RecoverDocumentId(error).value == other)
  {
    var id := RecoverDocumentId(error).value;
    SearchFromLeftmost(error, 0);
    var j: nat :| j <= |error| && MatchAt(error, j) == Some(id)
                  && forall k: nat :: k < j ==> MatchAt(error, k).None?;
    MatchAtOccurrence(error, j2, other);
    MatchFound(error, j);
    assert j <= j2;
  }

  /** The pattern cannot start where there is no 'D'. */
  lemma NoMatchWithoutD(s: string, j: nat)
    requires j <= |s| && (j < |s| ==> s[j] != 'D')
    ensures MatchAt(s, j).None?
  {
  }

  const NonHexId: string := "doc-123"
  const NonHexDuplicate: string := Opening + NonHexId + Closing

  lemma NonHexFirstPositionFails()
    ensures MatchAt(NonHexDuplicate, 0).None?
  {
    var s := NonHexDuplicate;
    var tail := NonHexId + Closing;
    assert s[|Opening|..] == tail;
    assert IdRun(tail[1..]) == [] by {
      assert tail[1] == 'o';
    }
    assert IdRun(tail) == "d";
    assert s[|Opening| + 1] == 'o';
  }

  lemma NonHexHasOneD()
    ensures forall j :: 1 <= j < |NonHexDuplicate| ==> NonHexDuplicate[j] != 'D'
  {
    assert forall k :: 1 <= k < |Opening| ==> Opening[k] != 'D';
    assert forall k :: 0 <= k < |NonHexId| ==> NonHexId[k] != 'D';
    assert forall k :: 0 <= k < |Closing| ==> Closing[k] != 'D';
  }

  /** An error text whose would-be id contains a letter outside `a-f` is not recovered:
      "Document doc-123 already exists" yields nothing, since `o` stops the group after `d`. */
  lemma NonHexIdNotRecovered()
    ensures RecoverDocumentId(NonHexDuplicate) == None
  {
    var s := NonHexDuplicate;
    NonHexFirstPositionFails();
    NonHexHasOneD();
    forall j: nat | 1 <= j <= |s|
      ensures MatchAt(s, j).None?
    {
      NoMatchWithoutD(s, j);
    }
    SearchFromNone(s, 0);
  }
}
