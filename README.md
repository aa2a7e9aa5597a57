# Summary notes ledger of triagebot's `note` handler

Users can write `@rustbot note <title>` on an issue or pull request. triagebot
then keeps a "Summary Notes" section in the top post. This project models the
part of `src/handlers/note.rs` that holds the logic of that section, and proves
properties of the model:

- a note entry (`NoteDataEntry`: title, comment link, author) and the bullet line it renders to;
- the ledger (`NoteData`): an ordered sequence of entries. It is a class whose
  `entries` field the methods update in place, as the source's `Vec` is;
- `NoteData::remove`: find the first entry with the given title (`Position`,
  a front-to-back scan as `iter().position` does) and delete it;
- `NoteData::to_markdown`: the empty string for an empty ledger; otherwise a
  header, then one line per entry pushed onto the text in ledger order, then a
  fixed footer;
- the state update of `handle_command`. The loaded state is an input
  (`Option`, where absent means an empty ledger). A `Summary` command pushes a
  new entry at the end. A `Remove` command calls `remove`. The output is the
  new markdown together with the new state, the pair the source hands to the
  issue-body editor. `Apply` states this on values, and the imperative
  `HandleCommand` is proved equal to it.

Two files: `wrappers.dfy` (`Option`, `Result`) and `note.dfy` (module `Note`).

Removing a title that no entry has is where the source's `unwrap` panics
(src/handlers/note.rs:66). The panic ends `handle_command` before anything is
written back. The model makes this a typed failure instead:
`RemoveFirst` and `Apply` return `Err(EntryNotFound(title))`,
`NoteData.Remove` returns `false` and leaves the entries unchanged, and
`HandleCommand` returns the error with no update to persist. No `requires`
excludes this case.

The module comment's second example (src/handlers/note.rs:22-34) shows the
section without the footer. The code always appends the footer
(src/handlers/note.rs:82). The model follows the code.

## Model

| member | source | states |
|---|---|---|
| `Note.EntryMarkdown` | src/handlers/note.rs:49-56 | The `format!` of `NoteDataEntry::to_markdown` as a function. It carries no contract of its own; the exact literal it produces is stated by `Note.RenderSingle`. |
| `Note.Lines` | src/handlers/note.rs:79-81 | The lines the `for`/`push_str` loop appends, on values. No contract of its own; its order is stated by `Note.LinesConcat` and the loop is tied to it by `Note.NoteData.ToMarkdown`. |
| `Note.NoteData.constructor` | src/handlers/note.rs:59-62 | The ledger struct as a class with one `entries` field; a new object holds exactly the entries it is given. |
| `Note.UnwrapOrDefault` | src/handlers/note.rs:96 | `unwrap_or_default` on the loaded state. No contract of its own; `Note.AbsentIsEmpty` states that absent data acts as an empty ledger. |
| `Note.Render` | src/handlers/note.rs:74-84 | The text is empty exactly when the ledger is empty. A non-empty ledger's text starts with the `### Summary Notes` header and ends with the fixed footer. |
| `Note.LinesConcat` | src/handlers/note.rs:79-81 | The entry lines of `a + b` are the lines of `a` followed by the lines of `b`. So every entry's line appears in ledger order. |
| `Note.RenderSingle` | src/handlers/note.rs:49-84 | A one-entry ledger renders as exactly `"\n### Summary Notes\n" + "\n- [\"" + title + "\" by @" + author + "](" + comment_url + ")" + "\n\nGenerated by triagebot, see [help](...) for how to add more"`. |
| `Note.RenderPush` | src/handlers/note.rs:78-83 | Appending entry `e` to a non-empty ledger inserts exactly `e`'s line just before the footer. The text before the footer is unchanged. |
| `Note.NoteData.ToMarkdown` | src/handlers/note.rs:74-84 | The loop that pushes the header, each entry's line and the footer onto `text` returns exactly `Render(entries)`. |
| `Note.FirstMatch` | src/handlers/note.rs:66 | It returns no index exactly when no entry has the title. Otherwise the index is in range, that entry has the title, and no earlier entry does. |
| `Note.Position` | src/handlers/note.rs:66 | The front-to-back scan of `iter().position` returns the first matching index, or none when no entry matches (equal to `FirstMatch`). |
| `Note.RemoveFirst` | src/handlers/note.rs:65-73 | It fails with `EntryNotFound(title)` exactly when no entry has the title. Otherwise the result is one entry shorter and equals `entries[..i] + entries[i+1..]`, where `i` is the first matching index. |
| `Note.RemoveFirstCounts` | src/handlers/note.rs:72 | Removal takes away exactly one entry with the title. The count of every other title is unchanged. |
| `Note.RemoveFirstExample` | src/handlers/note.rs:65-73 | Removing `"a"` from `[a, b, a]` leaves `[b, a]`: the first match goes and the later duplicate stays. |
| `Note.NoteData.Remove` | src/handlers/note.rs:65-73 | It succeeds exactly when some entry has the title. The new entries are `RemoveFirst` of the old ones. On failure the entries are unchanged. |
| `Note.Apply` | src/handlers/note.rs:96-117 | On success the returned markdown is the rendering of the returned state. It fails only for a `Remove` whose title no entry carries, and the error names that title. |
| `Note.HandleCommand` | src/handlers/note.rs:96-117 | The imperative handler (build `current`, push or remove in place, render) returns exactly `Apply(loaded, cmd, commentUrl, author)`. |
| `Note.AbsentIsEmpty` | src/handlers/note.rs:96 | With no saved data the command acts on an empty ledger (`unwrap_or_default`). |
| `Note.SummaryAppends` | src/handlers/note.rs:102-110 | A `Summary` command always succeeds. The ledger grows by one. The earlier entries are unchanged and in the same order. The last entry is `{title, comment_url, author}`. |
| `Note.SummaryMarkdown` | src/handlers/note.rs:102-117 | After a `Summary` command the markdown on an empty ledger is header + new line + footer. On a non-empty ledger it is the old text with the new line inserted just before the footer. |
| `Note.SummaryKeepsDuplicates` | src/handlers/note.rs:110 | Duplicate titles are not rejected: a `Summary` command raises the number of entries with its title by exactly one. |
| `Note.RemoveDropsFirst` | src/handlers/note.rs:112-114 | A `Remove` command fails exactly when no entry has the title. Otherwise it drops exactly one entry with that title, the first one, and keeps the others in order. |
| `Note.ReplaySummaries` | src/handlers/note.rs:96-110 | Successive `Summary` events, each loading what the previous one saved, leave the loaded entries followed by the new entries. |
| `Note.ReplaySummariesInOrder` | src/handlers/note.rs:96-110 | After successive `Summary` events the existing entries come first, unchanged. The i-th new entry is the one the i-th event posted. |

## Left out

- The reads and writes of the issue body (`EditIssueBody::new`, `current_data`, `apply`, src/handlers/note.rs:94, 96, 120). They are network I/O against GitHub. The model takes the loaded state as an input and returns the markdown and state to be written.
- The `Event` accessors `issue()`, `html_url()`, `user().login` and their `unwrap`s (src/handlers/note.rs:93, 98-99). They read foreign types. The comment link and the author are plain string parameters.
- The `TRIAGEBOT_SUMMARY_START/END` markers around the section. The issue-body editor adds them; this file does not.
- Serialisation of `NoteData` (the serde derives). The format belongs to a library that is not part of this model. The state is a sequence of entries.
- `log::debug!` calls. They are tracing only.
- `NoteConfig`. It is unused.
- Concurrent commands on the same issue and retrying a write. The handler does a single read and then a single write, with no conflict handling.
- Rust strings are UTF-8. The model uses sequences of characters, and title matching is exact equality, as in the source.
