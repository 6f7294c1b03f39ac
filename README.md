# clickup-tasks: the table renderer, modelled in Dafny

clickup-tasks fetches the open tasks of one ClickUp user over HTTPS and
prints them as a fixed-width text table. This project models the part of
`src/main.c` that turns the fetched response into that table:

- `ResponseBuffer`: the `MemoryStruct` buffer that libcurl fills through
  `WriteMemoryCallback` (grow, copy, NUL-terminate, or report failure), and
  the buffer's initialisation in `main`.
- `CStrings`: the C-string view of character buffers (`strlen`, `strncat`,
  `strncpy`) on `array<char>`, and `CStr`, the C string a Jansson string
  value is read as.
- `Json`: the parsed JSON tree handed to the renderer, with
  `json_object_get` and the "present and a string" test.
- `Table`: the column widths of `include/main.h`, printf's `%-*s` padding,
  name truncation in `print_table_row`, and the separator, header and row
  lines (`print_table_separator`, `print_table_header`).
- `Assignees`: the assignee loop, which joins usernames with ", " into an
  81-character buffer, stops at 80 characters, and finishes with "N/A" or a
  trailing space. The loop runs on the buffer; its result is proved equal to
  a bounded cut of an ordinary separator join.
- `Tasks`: the per-field fallbacks to "N/A", the dispatch on the `tasks`
  member (parse failure, not an array, empty, non-empty), and the output:
  header block, one row per task in order, closing separator.

Output is modelled as the text written to standard output, one string per
printed line, newline included, so a separator line is 159 characters.

Where the program's documented behaviour and its code differ, the model
follows the code. The documented behaviour joins only non-empty usernames. The code
skips an assignee whose `username` is missing or not a string. It does not skip a username that is the empty string: that one adds
nothing when nothing has been accumulated yet, and adds a bare ", " after
something has.

## Model

| member | source | states |
|---|---|---|
| ResponseBuffer.MemoryStruct.WriteMemoryCallback | src/main.c:4-20 | on success returns size*nmemb, prints nothing, the body becomes the old body followed by the chunk, and the byte after it is NUL; on realloc failure prints "not enough memory (realloc returned NULL)" on standard output, returns 0 and leaves buffer and size as they were |
| ResponseBuffer.MemoryStruct.AppendChunk | src/main.c:8-17 | realloc to size+realsize+1, memcpy after the body, size grows by the chunk, the body is old body + chunk and is NUL-terminated |
| ResponseBuffer.Realloc | src/main.c:8 | a successful realloc: a block of the requested size whose first bytes are those of the old block |
| ResponseBuffer.MemCpy | src/main.c:15 | memcpy: the chunk lands at the given offset; the bytes before and after it are unchanged |
| ResponseBuffer.MemoryStruct.constructor | src/main.c:112-116 | main's initialisation: a one-byte block holding an indeterminate byte, size 0, empty body |
| ResponseBuffer.MemoryStruct.Empty | src/main.c:112-116 | the intended initialisation: empty body, already NUL-terminated |
| ResponseBuffer.EmptyBodyAsWritten | src/main.c:114-116 | with an empty response and main's initialisation, the byte json_loads reads first need not be a NUL |
| ResponseBuffer.EmptyBodyCorrected | src/main.c:114-116 | with the intended initialisation, an empty response is a terminated empty string |
| CStrings.Take | src/main.c:64 | the first min(n, len) characters, a prefix of the string |
| CStrings.CStr | src/main.c:232 | the C string read from a character sequence: its prefix up to the first NUL, the whole sequence when it has none |
| CStrings.StrLen | src/main.c:274 | strlen: the returned length is the position of the first NUL, with no NUL before it |
| CStrings.StrNCat | src/main.c:266 | strncat: the buffer afterwards holds its old string followed by at most n characters of src, and is NUL-terminated |
| CStrings.StrNCpy | src/main.c:283-284 | strncpy: the first n characters are src's, padded with NULs; the rest of the buffer is untouched |
| Json.ObjectGet | src/main.c:230 | json_object_get: a member is returned exactly when the value is an object that has the key, and it is that member |
| Json.StringValue | src/main.c:232 | a value is returned exactly when the member is present and a string, and it is that string read as a C string |
| Table.Pad | src/main.c:76 | `%-*s`: the result is the field followed by max(0, width - length) spaces; the field is never shortened |
| Table.TruncateName | src/main.c:60-72 | a name of at most 40 characters is unchanged; a longer one becomes exactly 40 characters, its first 37 followed by "..." |
| Table.FormatLine | src/main.c:76 | the line's length is 14 plus each field's padded width |
| Table.SeparatorLine | src/main.c:22-42 | the line print_table_separator writes: LINE_WIDTH characters, starting with '+' and ending with "+" and a newline |
| Table.HeaderLine | src/main.c:50 | the header line is exactly LINE_WIDTH characters |
| Table.HeaderBlock | src/main.c:46-54 | what print_table_header writes: three line widths, starting and ending with the separator |
| Table.RowLine | src/main.c:58-78 | the line print_table_row writes: never narrower than the separator, starting with "\| " and ending with " \|" and a newline |
| Table.SeparatorShape | src/main.c:22-42 | the separator is 158 characters and a newline, '+' at columns 0, 13, 56, 74 and 157 and '-' everywhere else |
| Table.FittingLineAligns | src/main.c:50 | a line whose fields fit their columns is as long as the separator and has '\|' at each of the separator's '+' columns |
| Table.HeaderAligns | src/main.c:46-54 | the header line lines up with the separator; the header block is three separator widths long |
| Table.RowWidth | src/main.c:58-78 | a row is one separator width plus the overflow of the id and status; the name and the assignees never widen it |
| Table.ConcatAppend | src/main.c:224-299 | writing two runs of lines one after the other writes the text of the first then the second |
| Table.ConcatPrefix | src/main.c:224-297 | writing the first i + 1 lines writes the first i lines, then line i |
| Table.AppendDashes | src/main.c:26 | the counting loop appends exactly n dashes |
| Table.PrintSeparator | src/main.c:22-42 | the printed text is the separator line |
| Table.PrintHeader | src/main.c:46-54 | the printed text is separator, header line, separator |
| Assignees.UsernameOf | src/main.c:258-260 | the username an assignee contributes: its `username` member when that is a string, otherwise none (no contract; its cases are used by JoinedIsJoin) |
| Assignees.AssigneeItems | src/main.c:251-257 | the loop visits elements only when `assignees` is an array, and then exactly its elements |
| Assignees.Joined | src/main.c:256-280 | the unbounded accumulation, one assignee at a time (no contract of its own; JoinedIsJoin, JoinedGrows and NothingAccumulated state its properties) |
| Assignees.JoinedSnoc | src/main.c:257-276 | one more assignee leaves the accumulation as it was when it has no username, and applies one step with its username otherwise |
| Assignees.DropLeadingEmpty | src/main.c:263 | the result is empty or starts with a non-empty username |
| Assignees.JoinedIsJoin | src/main.c:256-280 | the unbounded accumulation equals the ", "-join of the usernames present, once leading empty usernames are dropped |
| Assignees.NothingAccumulated | src/main.c:282 | nothing is accumulated exactly when every username present is empty (or there is none) |
| Assignees.JoinedGrows | src/main.c:277-279 | later assignees only extend the accumulation, so stopping early keeps a prefix of it |
| Assignees.BoundedStep | src/main.c:262-275 | one step on the buffer never takes it past 80 characters |
| Assignees.BoundedStepIsPrefix | src/main.c:262-275 | one step on the 80-character buffer gives the first 80 characters of the unbounded step |
| Assignees.AppendUsername | src/main.c:262-275 | the two strncat calls leave the buffer holding the bounded step, and current_len is its strlen |
| Assignees.FinishBuffer | src/main.c:282-291 | the buffer afterwards holds, as a C string, the returned cell: "N/A" when it was empty, the accumulation and a space when shorter than 80, the accumulation otherwise |
| Assignees.FinishAssignees | src/main.c:282-291 | the finished column is never empty, at most 80 characters, and starts with the accumulation when there is one |
| Assignees.AssigneesField | src/main.c:250-291 | a task's assignees column is never empty and never wider than 80 characters |
| Assignees.AccumulateAssignees | src/main.c:256-281 | the loop leaves the buffer holding, as a C string of length current_len, the first 80 characters of the unbounded accumulation |
| Assignees.BuildAssignees | src/main.c:250-291 | the column built on the buffer is the finished first 80 characters of the unbounded accumulation |
| Assignees.AssigneesFieldSpec | src/main.c:250-291 | for the join J of the usernames: at most 80 characters; "N/A" exactly when J is empty; J and a space when 0 < \|J\| < 80; the first 80 characters of J otherwise |
| Tasks.DecodeTask | src/main.c:226-246 | an element of `tasks` that is not an object yields "N/A" for every field and no assignees |
| Tasks.TaskRow | src/main.c:226-295 | the row printed for one task is never narrower than the separator |
| Tasks.Render | src/main.c:174-299 | the table or "No tasks found." is printed exactly when the parse succeeded and `tasks` is an array |
| Tasks.DecodeTaskFallbacks | src/main.c:230-246 | for an element that is an object, each field falls back to "N/A" on its own (assignees to none): custom_id and name must be present strings, status an object whose own status is a string, assignees an array |
| Tasks.TaskRowsSnoc | src/main.c:224-297 | the text of the rows grows by the row of each next task, in input order |
| Tasks.TaskRowLength | src/main.c:295 | a task's row is one separator width plus its overflow |
| Tasks.TaskRowsLength | src/main.c:224-297 | the rows of n tasks are n separator widths plus their overflow |
| Tasks.RenderCases | src/main.c:174-216 | parse failure and a missing or non-array `tasks` print nothing on standard output; an empty array prints only "No tasks found."; otherwise header block, rows and closing separator |
| Tasks.TableLength | src/main.c:218-299 | a table of n tasks is n + 4 separator widths plus the overflow of long ids and statuses |
| Tasks.ExampleAssignees | src/main.c:256-291 | assignees alice and bob give the column "alice, bob " |
| Tasks.ExampleRow | src/main.c:226-295 | the row of a task with custom_id T-1, name "Fix bug", status open and assignees alice and bob |
| Tasks.PrintTaskRow | src/main.c:226-295 | one pass of the tasks loop prints the task's row |
| Tasks.PrintRows | src/main.c:224-297 | the loop prints the rows of all tasks, in order |
| Tasks.PrintTasks | src/main.c:174-299 | the outcome of main from the parsed response on is the one Render describes |

## Left out

- The HTTP request: curl initialisation, options, `curl_easy_perform`, the
  URL and Authorization header built with `snprintf`, and cleanup. How a
  failed transfer is reported on standard error is not modelled.
- ResponseBuffer.MemoryStruct.WriteMemoryCallback: returns the text it prints
  on standard output when realloc fails, but that text is not joined with the
  rest of main's output, since the transfer itself is not modelled.
- Environment variables and the usage message; exit statuses appear only as
  the `ParseFailed` and `TasksNotArray` outcomes.
- JSON parsing: `json_loads` is not modelled. The renderer's input is the
  parsed value, or `None` when parsing fails.
- Everything written to standard error, including the first 500 characters
  of an unparsable response.
- `fmin` works on doubles in the source; the model uses integer minimum,
  which agrees for lengths below 2^53.
- ResponseBuffer.MemoryStruct.WriteMemoryCallback: does not model `size_t`
  wrap-around of `size * nmemb` or `size + realsize + 1`; libcurl passes size 1
  and bodies far below that bound.
- ResponseBuffer.Realloc: always returns a new block, where realloc may grow
  the block in place; the buffer's `memory` field is the only pointer to it,
  so no behaviour depends on the difference.
- ResponseBuffer.MemoryStruct.WriteMemoryCallback: whether realloc succeeds
  is a parameter, and the bytes realloc adds are taken to be 0 before they
  are overwritten.
- Characters stand for bytes: multi-byte UTF-8 sequences in names are not
  modelled, so truncation counts characters where the program counts bytes.
- Jansson strings are read through `CStr`, up to the first NUL; the parser
  the program uses rejects escaped NULs, so this only matters for inputs it
  never produces.
- Failures of `printf` itself and buffering of standard output.

## Findings

| source | as written | input that shows it | evidently intended | confidence | as-written member | corrected member |
|---|---|---|---|---|---|---|
| src/main.c:114-116 | `malloc(1)` leaves the buffer's only byte uninitialised and `size` 0; if curl never calls `WriteMemoryCallback`, `json_loads` reads that byte as the start of a C string | a successful transfer with an empty body, the malloc'd byte holding 'A' | the byte is set to NUL, so an empty body is the empty string | not executed | ResponseBuffer.EmptyBodyAsWritten | ResponseBuffer.EmptyBodyCorrected |
