/** How the dashboard names agents (client/src/utils/agent-helpers.ts): an
    agent id of the form `computer-agentId`, where the agent part is a short
    alphanumeric word after the last dash, is shown as its two parts. */
module AgentHelpers {
  import opened Text

  datatype ParsedAgentId = ParsedAgentId(computer: string, agentId: string, original: string)

  /** The longest agent part the parser accepts after the last dash. */
  const MaxAgentPart: nat := 8

  /** `id` is `computer-agentId` split at dash `k`: a non-empty computer
      part, and a short alphanumeric agent part (which holds no dash, so `k`
      is the last dash). */
  predicate SplitsAt(id: string, k: int) {
    0 < k < |id| && id[k] == '-' && |id| - k <= MaxAgentPart + 1 && IsAlnumWord(id[k + 1..])
  }

  /** `parseAgentId`: split at the last dash when the part after it is a
      short alphanumeric word and the part before it is not empty;
      otherwise the whole id is the computer and the agent part is empty. */
  function ParseAgentId(id: string): (r: ParsedAgentId)
    ensures r.original == id
    ensures r.agentId != "" ==> r.computer + "-" + r.agentId == id
    ensures r.agentId != "" ==> r.computer != "" && IsAlnumWord(r.agentId) && |r.agentId| <= MaxAgentPart
    ensures r.agentId == "" ==> r.computer == id
  {
    var lastDash := LastIndexOf(id, '-');
    if lastDash > 0 && |id| - lastDash <= MaxAgentPart + 1 then
      var agentPart := Substring(id, lastDash + 1, |id|);
      var computerPart := Substring(id, 0, lastDash);
      SliceToEnd(id, lastDash + 1);
      assert agentPart == id[lastDash + 1..|id|] == id[lastDash + 1..];
      assert computerPart == id[0..lastDash] == id[..lastDash];
      if IsAlnumWord(agentPart) && |computerPart| > 0 then
        assert id == computerPart + "-" + agentPart;
        ParsedAgentId(computerPart, agentPart, id)
      else ParsedAgentId(id, "", id)
    else ParsedAgentId(id, "", id)
  }

  /** A dash followed only by alphanumerics is the last dash. */
  lemma LastDashAt(id: string, k: int)
    requires 0 <= k < |id| && id[k] == '-' && IsAlnumWord(id[k + 1..])
    ensures LastIndexOf(id, '-') == k
  {
  }

  /** An id splits exactly when some dash splits it in the sense of `SplitsAt`. */
  lemma SplitIff(id: string)
    ensures ParseAgentId(id).agentId != "" <==> exists k :: SplitsAt(id, k)
  {
    if k :| SplitsAt(id, k) {
      LastDashAt(id, k);
    }
    if ParseAgentId(id).agentId != "" {
      assert SplitsAt(id, LastIndexOf(id, '-'));
    }
  }

  /** Parsing recovers the parts of every well-formed id: the inverse of
      joining a computer name and an agent part with a dash. */
  lemma ParseJoin(computer: string, agentId: string)
    requires computer != "" && IsAlnumWord(agentId) && |agentId| <= MaxAgentPart
    ensures ParseAgentId(computer + "-" + agentId) == ParsedAgentId(computer, agentId, computer + "-" + agentId)
  {
    var id := computer + "-" + agentId;
    assert id[|computer| + 1..] == agentId;
    assert id[..|computer|] == computer;
    LastDashAt(id, |computer|);
    assert Substring(id, |computer| + 1, |id|) == agentId;
    assert Substring(id, 0, |computer|) == computer;
  }

  datatype DisplayName = DisplayName(primary: string, secondary: string)

  /** `formatAgentDisplayName`: the computer above, the agent part below. */
  function FormatAgentDisplayName(id: string): (r: DisplayName)
    ensures r.primary == ParseAgentId(id).computer && r.secondary == ParseAgentId(id).agentId
  {
    var p := ParseAgentId(id);
    if p.agentId != "" then DisplayName(p.computer, p.agentId) else DisplayName(p.computer, "")
  }

  /** The two display lines lose nothing: rejoined with a dash they give
      the id back. */
  lemma DisplayNameRejoins(id: string)
    ensures var d := FormatAgentDisplayName(id);
      (if d.secondary == "" then d.primary else d.primary + "-" + d.secondary) == id
  {
  }

  const DefaultShortLength: int := 20

  /** What `parseAgentId` guarantees of its result. */
  predicate Shaped(p: ParsedAgentId) {
    && (p.agentId != "" ==> p.computer + "-" + p.agentId == p.original && p.computer != "" && |p.agentId| <= MaxAgentPart)
    && (p.agentId == "" ==> p.computer == p.original)
  }

  /** `getShortAgentName` on a parsed id: the id itself when it fits;
      otherwise the computer part cut to fit in front of the whole agent
      part, or only the agent part when three or fewer characters would be
      left for the computer; an id without an agent part is cut and marked
      with `...`. */
  function ShortName(p: ParsedAgentId, maxLength: int): (r: string)
    requires Shaped(p)
    ensures |p.original| <= maxLength ==> r == p.original
    ensures var room := maxLength - |p.agentId| - 1;
      p.agentId != "" && |p.original| > maxLength && room > 3 ==> r == p.original[..room] + "-" + p.agentId
    ensures p.agentId != "" && |p.original| > maxLength && maxLength - |p.agentId| - 1 <= 3 ==> r == p.agentId
    ensures p.agentId == "" && |p.original| > maxLength && maxLength >= 3 ==> r == p.original[..maxLength - 3] + "..."
  {
    if p.agentId != "" then
      var combined := p.computer + "-" + p.agentId;
      if |combined| <= maxLength then combined
      else
        var room := maxLength - |p.agentId| - 1;
        if room > 3 then
          assert Substring(p.computer, 0, room) == p.original[..room] by {
            assert room < |p.computer|;
            assert p.original[..room] == combined[..room];
          }
          Substring(p.computer, 0, room) + "-" + p.agentId
        else p.agentId
    else if |p.computer| > maxLength then Substring(p.computer, 0, maxLength - 3) + "..."
    else p.computer
  }

  /** `getShortAgentName(id, maxLength)`. */
  function ShortAgentName(id: string, maxLength: int): (r: string)
    ensures |id| <= maxLength ==> r == id
    ensures ParseAgentId(id).agentId == "" && |id| > maxLength && maxLength >= 3 ==> r == id[..maxLength - 3] + "..."
  {
    ShortName(ParseAgentId(id), maxLength)
  }

  predicate EndsWith(s: string, suffix: string) {
    |suffix| <= |s| && s[|s| - |suffix|..] == suffix
  }

  lemma EndsWithAppend(x: string, y: string)
    ensures EndsWith(x + y, y)
  {
    assert (x + y)[|x|..] == y;
  }

  /** The agent part is never cut: a short name of an id with an agent part
      is the agent part alone or ends with the dash and the whole agent part. */
  lemma ShortNameKeepsAgent(p: ParsedAgentId, maxLength: int)
    requires Shaped(p) && p.agentId != ""
    ensures var r := ShortName(p, maxLength);
      r == p.agentId || EndsWith(r, "-" + p.agentId)
  {
    var r := ShortName(p, maxLength);
    if |p.original| <= maxLength {
      assert r == p.computer + "-" + p.agentId;
      EndsWithAppend(p.computer, "-" + p.agentId);
    } else if maxLength - |p.agentId| - 1 > 3 {
      var head := p.original[..maxLength - |p.agentId| - 1];
      assert r == head + "-" + p.agentId;
      EndsWithAppend(head, "-" + p.agentId);
    }
  }

  /** From three characters on, a short name fits its budget, except when
      it is the bare agent part (at most eight characters). */
  lemma ShortNameFits(p: ParsedAgentId, maxLength: int)
    requires Shaped(p) && maxLength >= 3
    ensures var r := ShortName(p, maxLength);
      |r| <= maxLength || (r == p.agentId && |r| <= MaxAgentPart)
  {
    if p.agentId != "" && |p.original| > maxLength && maxLength - |p.agentId| - 1 > 3 {
      assert |ShortName(p, maxLength)| == maxLength - |p.agentId| - 1 + 1 + |p.agentId|;
    }
  }
}
