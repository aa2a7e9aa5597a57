/**
 * The summary-notes ledger of triagebot's `note` handler: entries, their
 * markdown rendering, removal by title, and the state update that one
 * `@rustbot note` command performs on the persisted ledger.
 */
module Note {
  import opened Wrappers

  /** One summary note. */
  datatype NoteDataEntry = NoteDataEntry(title: string, commentUrl: string, author: string)

  /** A parsed note command: add a summary entry, or remove one by title. */
  datatype NoteCommand = Summary(title: string) | Remove(title: string)

  /** Removing a title that no entry carries: the point where the source's `unwrap` panics. */
  datatype NoteError = EntryNotFound(title: string)

  /** What one command hands to the issue-body editor: the new markdown and the new state. */
  datatype Update = Update(markdown: string, entries: seq<NoteDataEntry>)

  /** One command event: the command, the link to its comment and the commenter's login. */
  datatype Request = Request(cmd: NoteCommand, commentUrl: string, author: string)

  const Header: string := "\n### Summary Notes\n"
  const Footer: string := "\n\nGenerated by triagebot, see [help](https://github.com/rust-lang/triagebot/wiki/Note) for how to add more"

  // ---------------------------------------------------------------------------
  // Rendering

  /** The bullet line of one entry. */
  function EntryMarkdown(e: NoteDataEntry): string
  {
    "\n- [\"" + e.title + "\" by @" + e.author + "](" + e.commentUrl + ")"
  }

  /** The bullet lines of all entries, in ledger order. */
  function Lines(entries: seq<NoteDataEntry>): string
  {
    if entries == [] then "" else EntryMarkdown(entries[0]) + Lines(entries[1..])
  }

  /** The markdown that fills the summary section. */
  function Render(entries: seq<NoteDataEntry>): (r: string)
    ensures r == "" <==> entries == []
    ensures entries != [] ==>
      |r| >= |Header| + |Footer| && r[..|Header|] == Header && r[|r| - |Footer|..] == Footer
  {
    if entries == [] then "" else Header + Lines(entries) + Footer
  }

  /** Rendering is a concatenation: the lines of `a + b` are those of `a` followed by those of `b`. */
  lemma {:induction false} LinesConcat(a: seq<NoteDataEntry>, b: seq<NoteDataEntry>)
    ensures Lines(a + b) == Lines(a) + Lines(b)
  {
    if a == [] {
      assert a + b == b;
    } else {
      assert (a + b)[0] == a[0];
      assert (a + b)[1..] == a[1..] + b;
      LinesConcat(a[1..], b);
    }
  }

  lemma LinesSingle(e: NoteDataEntry)
    ensures Lines([e]) == EntryMarkdown(e)
  {
    assert [e][1..] == [];
  }

  /** Pushing one more line onto the text built so far. */
  lemma LinesPush(entries: seq<NoteDataEntry>, e: NoteDataEntry)
    ensures Header + Lines(entries + [e]) == (Header + Lines(entries)) + EntryMarkdown(e)
  {
    LinesConcat(entries, [e]);
    LinesSingle(e);
  }

  /** Inserting `b` just before the footer `f` of `h + a + f`. */
  lemma FooterSplice(h: string, a: string, b: string, f: string)
    ensures h + (a + b) + f == (h + a + f)[..|h + a + f| - |f|] + b + f
  {
    assert (h + a + f)[..|h + a + f| - |f|] == h + a;
  }

  /** A ledger of one entry renders as the header, that entry's bullet line and the footer. */
  lemma RenderSingle(e: NoteDataEntry)
    ensures Render([e]) ==
      "\n### Summary Notes\n"
      + "\n- [\"" + e.title + "\" by @" + e.author + "](" + e.commentUrl + ")"
      + "\n\nGenerated by triagebot, see [help](https://github.com/rust-lang/triagebot/wiki/Note) for how to add more"
  {
    LinesSingle(e);
    ConcatRegroup(Header, "\n- [\"", e.title, "\" by @", e.author, "](", e.commentUrl, ")", Footer);
  }

  /** Regrouping a concatenation of nine strings. */
  lemma ConcatRegroup(h: string, a: string, b: string, c: string, d: string, x: string, y: string, z: string, f: string)
    ensures h + (a + b + c + d + x + y + z) + f == h + a + b + c + d + x + y + z + f
  {
  }

  /**
   * Appending an entry to a non-empty ledger inserts exactly that entry's line
   * just before the footer; the text before it is unchanged.
   */
  lemma RenderPush(entries: seq<NoteDataEntry>, e: NoteDataEntry)
    requires entries != []
    ensures var before := Render(entries);
      Render(entries + [e]) == before[..|before| - |Footer|] + EntryMarkdown(e) + Footer
  {
    LinesConcat(entries, [e]);
    LinesSingle(e);
    FooterSplice(Header, Lines(entries), EntryMarkdown(e), Footer);
  }

  // ---------------------------------------------------------------------------
  // Lookup and removal

  ghost predicate HasTitle(entries: seq<NoteDataEntry>, title: string)
  {
    exists i :: 0 <= i < |entries| && entries[i].title == title
  }

  /** `i` is the first index, in ledger order, of an entry with this title. */
  ghost predicate IsFirstMatch(entries: seq<NoteDataEntry>, title: string, i: int)
  {
    0 <= i < |entries| && entries[i].title == title &&
    forall j :: 0 <= j < i ==> entries[j].title != title
  }

  /** The index `position` finds: the first entry with this title, if any. */
  function FirstMatch(entries: seq<NoteDataEntry>, title: string): (r: Option<nat>)
    ensures r.None? <==> !HasTitle(entries, title)
    ensures r.Some? ==> IsFirstMatch(entries, title, r.value)
    decreases |entries|
  {
    if entries == [] then None
    else if entries[0].title == title then Some(0)
    else match FirstMatch(entries[1..], title)
      case None =>
        assert forall k :: 1 <= k < |entries| ==> entries[k] == entries[1..][k - 1];
        None
      case Some(i) =>
        assert forall k :: 1 <= k <= i ==> entries[k] == entries[1..][k - 1];
        Some(i + 1)
  }

  /** `iter().position(|x| x.title == title)`: a front-to-back scan. */
  method Position(entries: seq<NoteDataEntry>, title: string) returns (r: Option<nat>)
    ensures r == FirstMatch(entries, title)
  {
    var i := 0;
    while i < |entries|
      invariant 0 <= i <= |entries|
      invariant forall j :: 0 <= j < i ==> entries[j].title != title
    {
      if entries[i].title == title {
        ghost var m := FirstMatch(entries, title);
        assert m.Some? && m.value == i by {
          assert m.Some? ==> !(m.value < i) && !(i < m.value);
        }
        return Some(i);
      }
      i := i + 1;
    }
    return None;
  }

  /**
   * `NoteData::remove` on values: drop the first entry with this title;
   * fail with `EntryNotFound` where the source panics.
   */
  function RemoveFirst(entries: seq<NoteDataEntry>, title: string): (r: Result<seq<NoteDataEntry>, NoteError>)
    ensures r.Err? <==> !HasTitle(entries, title)
    ensures r.Err? ==> r.error == EntryNotFound(title)
    ensures r.Ok? ==> |r.value| == |entries| - 1
    ensures r.Ok? ==> exists i :: IsFirstMatch(entries, title, i) && r.value == entries[..i] + entries[i + 1..]
  {
    match FirstMatch(entries, title)
    case None => Err(EntryNotFound(title))
    case Some(i) => Ok(entries[..i] + entries[i + 1..])
  }

  /** The number of entries carrying this title. */
  function CountTitle(entries: seq<NoteDataEntry>, title: string): nat
  {
    if entries == [] then 0
    else (if entries[0].title == title then 1 else 0) + CountTitle(entries[1..], title)
  }

  lemma {:induction false} CountTitleConcat(a: seq<NoteDataEntry>, b: seq<NoteDataEntry>, title: string)
    ensures CountTitle(a + b, title) == CountTitle(a, title) + CountTitle(b, title)
  {
    if a == [] {
      assert a + b == b;
    } else {
      assert (a + b)[0] == a[0];
      assert (a + b)[1..] == a[1..] + b;
      CountTitleConcat(a[1..], b, title);
    }
  }

  /** Removal takes away exactly one entry with the title and no entry with any other title. */
  lemma RemoveFirstCounts(entries: seq<NoteDataEntry>, title: string, other: string)
    requires HasTitle(entries, title)
    ensures RemoveFirst(entries, title).Ok?
    ensures CountTitle(RemoveFirst(entries, title).value, title) == CountTitle(entries, title) - 1
    ensures other != title ==>
      CountTitle(RemoveFirst(entries, title).value, other) == CountTitle(entries, other)
  {
    var i := FirstMatch(entries, title).value;
    assert entries == entries[..i] + [entries[i]] + entries[i + 1..];
    CountTitleConcat(entries[..i] + [entries[i]], entries[i + 1..], title);
    CountTitleConcat(entries[..i], [entries[i]], title);
    CountTitleConcat(entries[..i], entries[i + 1..], title);
    CountTitleConcat(entries[..i] + [entries[i]], entries[i + 1..], other);
    CountTitleConcat(entries[..i], [entries[i]], other);
    CountTitleConcat(entries[..i], entries[i + 1..], other);
    assert [entries[i]][1..] == [];
  }

  /** Removing "a" from [a, b, a] drops the first "a" and keeps the later one. */
  lemma RemoveFirstExample(u1: string, u2: string, u3: string, who: string)
    ensures RemoveFirst([NoteDataEntry("a", u1, who), NoteDataEntry("b", u2, who), NoteDataEntry("a", u3, who)], "a")
      == Ok([NoteDataEntry("b", u2, who), NoteDataEntry("a", u3, who)])
  {
    var es := [NoteDataEntry("a", u1, who), NoteDataEntry("b", u2, who), NoteDataEntry("a", u3, who)];
    assert FirstMatch(es, "a") == Some(0);
    assert es[..0] + es[1..] == [NoteDataEntry("b", u2, who), NoteDataEntry("a", u3, who)];
  }

  // ---------------------------------------------------------------------------
  // The ledger object

  /** The ledger as the source holds it: a vector of entries updated in place. */
  class NoteData {
    var entries: seq<NoteDataEntry>

    constructor (entries: seq<NoteDataEntry>)
      ensures this.entries == entries
    {
      this.entries := entries;
    }

    /**
     * Removes the first entry with this title. Where the source panics
     * (no such entry) it returns false and leaves the entries unchanged.
     */
    method Remove(title: string) returns (ok: bool)
      modifies this
      ensures ok <==> HasTitle(old(entries), title)
      ensures !ok ==> entries == old(entries)
      ensures RemoveFirst(old(entries), title) == if ok then Ok(entries) else Err(EntryNotFound(title))
    {
      var idx := Position(entries, title);
      if idx.None? {
        return false;
      }
      entries := entries[..idx.value] + entries[idx.value + 1..];
      return true;
    }

    /** Builds the section text by pushing each entry's line onto the header. */
    method ToMarkdown() returns (text: string)
      ensures text == Render(entries)
    {
      if entries == [] {
        return "";
      }
      text := Header;
      for i := 0 to |entries|
        invariant text == Header + Lines(entries[..i])
      {
        LinesPush(entries[..i], entries[i]);
        assert entries[..i + 1] == entries[..i] + [entries[i]];
        text := text + EntryMarkdown(entries[i]);
      }
      assert entries[..|entries|] == entries;
      text := text + Footer;
    }
  }

  // ---------------------------------------------------------------------------
  // One command

  /** `unwrap_or_default` on the loaded state: no saved data means an empty ledger. */
  function UnwrapOrDefault(loaded: Option<seq<NoteDataEntry>>): seq<NoteDataEntry>
  {
    if loaded.Some? then loaded.value else []
  }

  /** The state update and rendering of `handle_command`, on values. */
  function Apply(loaded: Option<seq<NoteDataEntry>>, cmd: NoteCommand, commentUrl: string, author: string): (r: Result<Update, NoteError>)
    ensures r.Ok? ==> r.value.markdown == Render(r.value.entries)
    ensures r.Err? <==> cmd.Remove? && !HasTitle(UnwrapOrDefault(loaded), cmd.title)
    ensures r.Err? ==> r.error == EntryNotFound(cmd.title)
  {
    var current := UnwrapOrDefault(loaded);
    var next := match cmd
      case Summary(title) => Ok(current + [NoteDataEntry(title, commentUrl, author)])
      case Remove(title) => RemoveFirst(current, title);
    match next
    case Err(e) => Err(e)
    case Ok(entries) => Ok(Update(Render(entries), entries))
  }

  /** `handle_command` with the loaded state as input and the update to persist as output. */
  method HandleCommand(loaded: Option<seq<NoteDataEntry>>, cmd: NoteCommand, commentUrl: string, author: string)
    returns (r: Result<Update, NoteError>)
    ensures r == Apply(loaded, cmd, commentUrl, author)
  {
    var current := new NoteData(UnwrapOrDefault(loaded));
    match cmd {
      case Summary(title) =>
        var newEntry := NoteDataEntry(title, commentUrl, author);
        current.entries := current.entries + [newEntry];
      case Remove(title) =>
        var ok := current.Remove(title);
        if !ok {
          return Err(EntryNotFound(title));
        }
    }
    var newMarkdown := current.ToMarkdown();
    r := Ok(Update(newMarkdown, current.entries));
  }

  /** With no saved data the command acts on an empty ledger. */
  lemma AbsentIsEmpty(cmd: NoteCommand, commentUrl: string, author: string)
    ensures Apply(None, cmd, commentUrl, author) == Apply(Some([]), cmd, commentUrl, author)
  {
  }

  /**
   * A summary command always succeeds and appends one entry built from the
   * title, comment link and author; every earlier entry stays in place.
   */
  lemma SummaryAppends(loaded: Option<seq<NoteDataEntry>>, title: string, commentUrl: string, author: string)
    ensures var es := UnwrapOrDefault(loaded);
      var r := Apply(loaded, Summary(title), commentUrl, author);
      && r.Ok?
      && |r.value.entries| == |es| + 1
      && r.value.entries[..|es|] == es
      && r.value.entries[|es|] == NoteDataEntry(title, commentUrl, author)
  {
    var es := UnwrapOrDefault(loaded);
    var e := NoteDataEntry(title, commentUrl, author);
    assert (es + [e])[..|es|] == es;
  }

  /**
   * The markdown of a summary command: on an empty ledger the header, the new
   * line and the footer; otherwise the old text with the new line inserted
   * just before the footer.
   */
  lemma SummaryMarkdown(loaded: Option<seq<NoteDataEntry>>, title: string, commentUrl: string, author: string)
    ensures var es := UnwrapOrDefault(loaded);
      var r := Apply(loaded, Summary(title), commentUrl, author);
      var line := EntryMarkdown(NoteDataEntry(title, commentUrl, author));
      && r.Ok?
      && (es == [] ==> r.value.markdown == Header + line + Footer)
      && (es != [] ==> var before := Render(es);
            r.value.markdown == before[..|before| - |Footer|] + line + Footer)
  {
    var es := UnwrapOrDefault(loaded);
    var e := NoteDataEntry(title, commentUrl, author);
    if es == [] {
      assert es + [e] == [e];
      LinesSingle(e);
    } else {
      RenderPush(es, e);
    }
  }

  /** Duplicate titles are not rejected: a summary adds one more entry with its title. */
  lemma SummaryKeepsDuplicates(loaded: Option<seq<NoteDataEntry>>, title: string, commentUrl: string, author: string)
    ensures var es := UnwrapOrDefault(loaded);
      var r := Apply(loaded, Summary(title), commentUrl, author);
      r.Ok? && CountTitle(r.value.entries, title) == CountTitle(es, title) + 1
  {
    var es := UnwrapOrDefault(loaded);
    var e := NoteDataEntry(title, commentUrl, author);
    CountTitleConcat(es, [e], title);
    assert [e][1..] == [];
  }

  /**
   * A remove command fails, with nothing persisted, exactly when no entry has
   * the title; otherwise it drops the first such entry and nothing else.
   */
  lemma RemoveDropsFirst(loaded: Option<seq<NoteDataEntry>>, title: string, commentUrl: string, author: string)
    ensures var es := UnwrapOrDefault(loaded);
      var r := Apply(loaded, Remove(title), commentUrl, author);
      && (r.Err? <==> !HasTitle(es, title))
      && (r.Ok? ==>
            && |r.value.entries| == |es| - 1
            && CountTitle(r.value.entries, title) == CountTitle(es, title) - 1
            && exists i :: IsFirstMatch(es, title, i) && r.value.entries == es[..i] + es[i + 1..])
  {
    var es := UnwrapOrDefault(loaded);
    if HasTitle(es, title) {
      RemoveFirstCounts(es, title, title);
    }
  }

  // ---------------------------------------------------------------------------
  // Successive commands on one issue

  /**
   * The persisted state after a series of command events, each loading what
   * the previous one saved. A failing event saves nothing.
   */
  function Replay(loaded: Option<seq<NoteDataEntry>>, reqs: seq<Request>): Option<seq<NoteDataEntry>>
    decreases |reqs|
  {
    if reqs == [] then loaded
    else match Apply(loaded, reqs[0].cmd, reqs[0].commentUrl, reqs[0].author)
      case Err(_) => Replay(loaded, reqs[1..])
      case Ok(u) => Replay(Some(u.entries), reqs[1..])
  }

  lemma ReplaySummaryStep(loaded: Option<seq<NoteDataEntry>>, reqs: seq<Request>)
    requires reqs != [] && reqs[0].cmd.Summary?
    ensures Replay(loaded, reqs) ==
      Replay(Some(UnwrapOrDefault(loaded) + [NoteDataEntry(reqs[0].cmd.title, reqs[0].commentUrl, reqs[0].author)]), reqs[1..])
  {
    assert reqs[0].cmd == Summary(reqs[0].cmd.title);
  }

  /** Every request in the series is a summary command. */
  ghost predicate AllSummaries(reqs: seq<Request>)
  {
    forall i :: 0 <= i < |reqs| ==> reqs[i].cmd.Summary?
  }

  /** The entries that the summary requests of a series ask for, in posting order. */
  function SummaryEntries(reqs: seq<Request>): seq<NoteDataEntry>
  {
    if reqs == [] then []
    else if reqs[0].cmd.Summary? then
      [NoteDataEntry(reqs[0].cmd.title, reqs[0].commentUrl, reqs[0].author)] + SummaryEntries(reqs[1..])
    else SummaryEntries(reqs[1..])
  }

  lemma {:induction false} SummaryEntriesAt(reqs: seq<Request>, i: int)
    requires AllSummaries(reqs)
    requires 0 <= i < |reqs|
    ensures |SummaryEntries(reqs)| == |reqs|
    ensures SummaryEntries(reqs)[i] == NoteDataEntry(reqs[i].cmd.title, reqs[i].commentUrl, reqs[i].author)
  {
    if |reqs| == 1 {
      assert reqs[1..] == [];
    } else if i == 0 {
      SummaryEntriesAt(reqs[1..], 0);
    } else {
      SummaryEntriesAt(reqs[1..], i - 1);
    }
  }

  lemma SummaryEntriesCons(es: seq<NoteDataEntry>, reqs: seq<Request>)
    requires reqs != []
    requires AllSummaries(reqs)
    ensures es + SummaryEntries(reqs) ==
      (es + [NoteDataEntry(reqs[0].cmd.title, reqs[0].commentUrl, reqs[0].author)]) + SummaryEntries(reqs[1..])
  {
    var e := NoteDataEntry(reqs[0].cmd.title, reqs[0].commentUrl, reqs[0].author);
    var rest := SummaryEntries(reqs[1..]);
    assert SummaryEntries(reqs) == [e] + rest;
    assert es + ([e] + rest) == (es + [e]) + rest;
  }

  lemma {:induction false} ReplaySummaries(loaded: Option<seq<NoteDataEntry>>, reqs: seq<Request>)
    requires reqs != []
    requires AllSummaries(reqs)
    ensures Replay(loaded, reqs) == Some(UnwrapOrDefault(loaded) + SummaryEntries(reqs))
    decreases |reqs|
  {
    var es := UnwrapOrDefault(loaded);
    var next := es + [NoteDataEntry(reqs[0].cmd.title, reqs[0].commentUrl, reqs[0].author)];
    ReplaySummaryStep(loaded, reqs);
    SummaryEntriesCons(es, reqs);
    if |reqs| == 1 {
      assert reqs[1..] == [];
      assert next + SummaryEntries(reqs[1..]) == next;
    } else {
      ReplaySummaries(Some(next), reqs[1..]);
    }
  }

  /** Summary commands leave their entries after the existing ones, in the order they were posted. */
  lemma ReplaySummariesInOrder(loaded: Option<seq<NoteDataEntry>>, reqs: seq<Request>)
    requires reqs != []
    requires AllSummaries(reqs)
    ensures var es := UnwrapOrDefault(loaded);
      var r := Replay(loaded, reqs);
      && r.Some?
      && |r.value| == |es| + |reqs|
      && r.value[..|es|] == es
      && forall i :: 0 <= i < |reqs| ==>
           r.value[|es| + i] == NoteDataEntry(reqs[i].cmd.title, reqs[i].commentUrl, reqs[i].author)
  {
    var es := UnwrapOrDefault(loaded);
    ReplaySummaries(loaded, reqs);
    SummaryEntriesAt(reqs, 0);
    forall i | 0 <= i < |reqs|
      ensures (es + SummaryEntries(reqs))[|es| + i] == NoteDataEntry(reqs[i].cmd.title, reqs[i].commentUrl, reqs[i].author)
    {
      SummaryEntriesAt(reqs, i);
    }
    assert (es + SummaryEntries(reqs))[..|es|] == es;
  }
}
