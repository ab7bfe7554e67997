# The name card's data plane, storage and helpers, verified

This project models the logic of an electronic name card in Dafny and proves what it is for.

- **Sessions** (`wire.dfy` to `inbound.dfy`). The dokan engine multiplexes streams over one reliable byte channel, with
  credit windows, pause and resume, EOF, RESET and GOAWAY. `engine.dfy` is one session as a state machine on values;
  a handler that raises a data event is split where the application's callback runs, and `stack` holds what the C call
  stack would hold meanwhile. `links.dfy` looks at one stream from both ends, `system.dfy` at two whole sessions, and
  `guarantees.dfy` states what every run of theirs keeps. `callbacks.dfy` and `feed.dfy` put callbacks and bytes back
  together into whole calls; `outqueue.dfy`, `session.dfy` and `inbound.dfy` are the imperative objects, with the
  fields, loops and buffers of the source, each method proved equal to those functions. `again.dfy` and `taking.dfy` count
  what an application is told more than once, and `cases.dfy` has runs on which that happens. `answers.dfy` says what single
  frames and calls are answered with, and what the other end makes of it.
- **Storage** (`flash.dfy`, `cardstore.dfy`, `lastcard.dfy`). Flash with erases and writes that a power failure may tear;
  the append-slot store on it; and the cache protocol that orders the key in non-volatile storage against the partition.
- **Card exchange** (`transfer.dfy` to `screen.dfy`). HELLO, CARD and ACK between two applications on two sessions:
  `transfer.dfy` is the application on values, `agreement.dfy` has the safety theorems, `completion.dfy` says what has
  happened once nothing is left to do and what the verdict means, `termination.dfy` that every run is bounded and every
  exchange can be carried to its end, `unacked.dfy` what success is worth without the ACK, `verdict.dfy` when a screen ends;
  `screen.dfy` is the object.
- **Self-contained algorithms**: base64url (`codec.dfy`), `base32.dfy`, `crc.dfy`, `descriptor.dfy`, `sha256.dfy`
  with its tables (`roots.dfy`) and a digest worked out (`abcdigest.dfy`), glyph scaling (`glyph.dfy`) and the calendar
  (`weekday.dfy`).

`dafny verify dfyconfig.toml` checks the whole project.

## Assumptions

- Both sessions of a pair use the same window: an opener starts from its own and a reader checks against its own.
- A side opens at most 32767 streams; `Guarantees.HostRunsOutOfIds` and `Guarantees.ClientRunsOutOfIds` show what comes next.
- A callback does not resume the stream whose held bytes it is being given; the guarantees exclude such a run, and
  `Guarantees.ResumeKeepsContentExactly` shows that the content claim fails in exactly that case, as it does on the run
  `Cases.ResumedInItsCallback`.
- What an application does in its callbacks is a script of calls, and the transport's partial writes, short reads, full
  disks and failing flash operations are inputs; every theorem is for all of them.
- A header slot that a power failure left incomplete is not valid for its CRC, and the CRC-32 is any function.
- Writes to the non-volatile key are atomic and do not fail short of a power failure.
- The lock makes each call, and each run of the feeding loop, one step with respect to the other thread.

## Where the code and its promises part

- FINISHED is not raised once only: resuming a paused stream past its end raises it again, and nothing else does
  (`Again.FinishedAgainExactly`, over runs `Again.FinishedOnceExactly`; on a run `Cases.FinishedTwice`).
- `resume` gives held bytes also on a reset stream, and forgets them only on a live one, so every pause and resume after a
  reset gives them again (`Taking.EveryRoundGivesHeld`, on a run `Cases.GivenTwice`). What was given is then still a
  prefix of what was written if and only if the peer happened to write those bytes again as often, behind what was taken in
  (`Taking.GivenIsPrefixExactly`, `Taking.GivenAgainExactly`).
- The ACK says that the card was handed over, not that it was stored: it is sent also when the temporary file could not
  be created or the disk was full. `Agreement.AckedIsStoredExactly` says exactly when an acknowledged card is stored, and
  `Termination.AckedUnstored` that there are runs in which it is not.
- A side that offers a card it does not have makes the peer wait for it, and nothing else does (`Completion.ExpectedExactly`,
  `Completion.NeverComes`, on a run `Termination.OfferedInVain`). A session that is closing is no second cause: the lock is
  held while the callback that reads HELLO runs, so closing waits for it.
- Success on the screen does not say that the peer has the card. Once its own bytes are written and the peer's card is placed,
  a departure, a failure or the timeout ends the screen with success too (`Completion.VerdictMeans` says exactly when), and
  there are runs in which the timeout does so while the peer was never handed the card. Nothing but the ACK distinguishes
  them from runs in which it was (`Unacked.SucceedsUnacked`).
- A HELLO longer than the window is cut; both sides then see no offer if, and only if, fewer than six bytes fit
  (`Completion.ExpectedExactly`).
- The base64url decoder ignores the unused bits of the last symbol, so a text may have several spellings
  (`Codec.EncodeInvertsDecode` says which; `Codec.TwoSpellings` has two).
- A NUL written over one character of a descriptor shortens the C string and may go unnoticed (`Descriptor.NulGoesUnnoticed`;
  `Descriptor.OneWrongCharacter` says exactly when). Any other wrong character is noticed or harmless.
- After a header write that failed and left its slot erased, later commits of the same transaction succeed and are not found
  (`Flash.SecondCommitUnseen`; `Flash.LatestFoundExactly` and `CardStore.Writer.Commit` say exactly when they are).

## Model

| member | source | states |
|---|---|---|
| `Wire.FirstFrameOfEncode` | components/dokan/src/dokan_session.c:109-131 | A frame laid out by `enqueue` reads back as the same kind, stream id and payload, whatever bytes follow it. |
| `Wire.PrefixIsIncomplete` | components/dokan/src/dokan_session.c:310-315 | No proper prefix of an encoded frame is taken for a whole frame by the parser's length test. |
| `Answers.FrameBytes` | components/dokan/src/dokan_session.c:109-131 | A frame is its kind, its stream id and its payload length, two bytes each and most significant first, and its payload. |
| `Outbound.OutQueue.Flush` | components/dokan/src/dokan_session.c:100-107 | The transport is handed exactly the longest prefix it takes under any pattern of partial writes, in order; what is left stays queued; an emptied queue returns to the start of its buffer. |
| `Outbound.FlushGoesOn` | components/dokan/src/dokan_session.c:100-107 | A flush stops only when all was taken or the transport took nothing when asked once more; what was taken is all that was granted, as far as there was anything. |
| `Outbound.OutQueue.Reserve` | components/dokan/src/dokan_session.c:111-126 | Compaction and doubling growth keep every queued byte, make enough room, and the growth loop ends. |
| `Outbound.OutQueue.Enqueue` | components/dokan/src/dokan_session.c:109-134 | The queue refines an unbounded FIFO: bytes accepted by the transport followed by bytes still queued are the concatenation of everything enqueued, across partial writes, compaction and growth. |
| `Links.OpenerWrites` | components/dokan/src/dokan_session.c:347-361 | Writing within the window keeps the invariant of the stream, seen from both ends: phases, credit, content and frame shapes. |
| `Links.OpenerGetsWindow` | components/dokan/src/dokan_session.c:275-284 | Taking a WINDOW frame never pushes the send window past the common window, so the 32-bit addition does not wrap, and keeps the stream invariant. |
| `Links.ChunksFacts` | components/dokan/src/dokan_session.c:351-357 | The chunking loop cuts the accepted bytes into nonempty DATA frames of at most the chunk size whose payloads concatenate to them. |
| `Links.NoDataAfterEnd` | components/dokan/src/dokan_session.c:258-265 | After an EOF or a RESET no DATA frame of the stream can follow, in any sequence of frames an opener sends. |
| `Reader.DataIsWelcome` | components/dokan/src/dokan_session.c:228-236 | On a live stream neither protocol error of the DATA handler can arise: the stream is not ended and the bytes fit the window. |
| `Reader.ReaderSettles` | components/dokan/src/dokan_session.c:197-202 | Consuming a delivery's bytes moves them into pending credit or a WINDOW frame without losing or making any, and keeps the stream invariant. |
| `Reader.ReaderReportsEnd` | components/dokan/src/dokan_session.c:204-207 | When the end is reported, what was delivered is all the opener ever wrote. |
| `Steps.OpenKeeps` | components/dokan/src/dokan_session.c:331-345 | Opening a stream keeps two joined sessions linked: the id is fresh and of the right parity. |
| `Steps.WriteKeeps` | components/dokan/src/dokan_session.c:347-361 | Writing keeps two joined sessions linked. |
| `Steps.FinishKeeps` | components/dokan/src/dokan_session.c:363-368 | Finishing keeps two joined sessions linked. |
| `Steps.ResetKeeps` | components/dokan/src/dokan_session.c:370-377 | Resetting, by either end, keeps two joined sessions linked. |
| `Steps.ResumeKeeps` | components/dokan/src/dokan_session.c:379-397 | Resuming, up to the callback for the held bytes, keeps two joined sessions linked, unless it re-enters a resume of the same stream. |
| `Steps.ReleaseKeeps` | components/dokan/src/dokan_session.c:399-408 | Releasing, by either end, keeps two joined sessions linked. |
| `Steps.CloseKeeps` | components/dokan/src/dokan_session.c:568-578 | Closing keeps two joined sessions linked. |
| `Steps.ReturnKeeps` | components/dokan/src/dokan_session.c:252-256 | Returning from a data callback, with the stream still there, reset or released meanwhile, keeps two joined sessions linked. |
| `Receiving.ReceiveKeeps` | components/dokan/src/dokan_session.c:286-298 | Processing the peer's next frame, whatever it is, keeps two joined sessions linked. |
| `Guarantees.RunKeeps` | components/dokan/src/dokan_session.c:211-298 | Every run of two joined sessions, with calls, frames and callback returns interleaved at will, keeps the whole invariant. |
| `Guarantees.NoProtocolError` | components/dokan/src/dokan_session.c:152-156 | Two honest peers, a host and a client with one window, never reach `protocol_error`. |
| `Guarantees.CreditConserved` | components/dokan/src/dokan_session.c:188-202 | For every stream live at both ends: send window, DATA bytes in flight, bytes outstanding at the reader and credit in flight add up to the window; outstanding is pending credit plus held bytes, or what a running callback was given. |
| `Guarantees.CreditGrantedExactly` | components/dokan/src/dokan_session.c:197-202 | Consuming bytes sends one WINDOW frame, carrying all the credit that is pending, if and only if that is at least max(1, W/2); otherwise nothing is sent and it stays pending. |
| `Guarantees.WindowNeverExceeded` | components/dokan/src/dokan_session.c:228-236 | No overrun and no 32-bit wrap at either end, also once the other end is reset or gone. |
| `Guarantees.ContentInOrder` | components/dokan/src/dokan_session.c:228-256 | Bytes delivered, bytes held back and DATA payload in flight, in this order, are exactly the bytes `write` accepted. |
| `Guarantees.FinishedMeansComplete` | components/dokan/src/dokan_session.c:204-207 | Whenever FINISHED has been raised, the delivered bytes are everything the opener wrote, and nothing but a RESET is still on its way. |
| `Guarantees.OpenedAsAsked` | components/dokan/src/dokan_session.c:211-226 | The kind and size hint a reader is told are those the opener asked for. |
| `Guarantees.NoCreditDeadlock` | components/dokan/src/dokan_session.c:197-202 | With nothing in flight and a reader that is not paused, the send window is at least W - max(1, W/2) + 1: more than half the window. |
| `Guarantees.StallHasACause` | components/dokan/src/dokan_session.c:197-202 | A shut window always has a cause: data or credit in flight, held bytes, or a running callback. |
| `Guarantees.OnlyWindowReopens` | components/dokan/src/dokan_session.c:275-284 | The only step that opens a shut window is a WINDOW frame, and it raises WRITABLE. |
| `Guarantees.ReopeningWakesWriter` | components/dokan/src/dokan_session.c:275-284 | No lost wakeup, over whole runs: a window that was shut and is open again has raised WRITABLE in between. |
| `Guarantees.StalledWriterIsWoken` | components/dokan/src/dokan_session.c:275-284 | A stalled writer has been woken by the time everything has settled, if the reader does not hold back and neither end gave up. |
| `Guarantees.ResumeKeepsContentExactly` | components/dokan/src/dokan_session.c:385-394 | Resuming a live stream with held bytes keeps its content claim if and only if those bytes are not already being given to a callback: the event is raised before the buffer is emptied. |
| `Guarantees.HostRunsOutOfIds` | components/dokan/src/dokan_session.c:335-337 | The open after 32767 others is where the host's id counter is back at 0, and only there; the peer refuses that frame as a protocol error. |
| `Guarantees.ClientRunsOutOfIds` | components/dokan/src/dokan_session.c:335-337 | The client's counter comes round to id 1 after 32768 opens, and only then; a peer that still has that stream refuses the frame. |
| `Again.FinishedAgainExactly` | components/dokan/src/dokan_session.c:379-397 | From any state in which the end of a stream has been reported, a step reports it again if and only if it resumes that stream while it is paused. |
| `Again.FinishedOnceExactly` | components/dokan/src/dokan_session.c:204-207 | Over whole runs the end is reported at most once if and only if the stream is never resumed while paused past its end; so at most once if it is never paused. |
| `Again.EveryCycleRepeats` | components/dokan/src/dokan_session.c:379-397 | Wherever the end was reported and the stream is still there, n times pausing and resuming reports it n times more. |
| `Cases.FinishedTwice` | components/dokan/src/dokan_session.c:379-397 | A run of six steps, from two fresh sessions, in which the host is told the end of a stream twice. |
| `Taking.GivenIsPrefixExactly` | components/dokan/src/dokan_session.c:379-397 | Over whole runs, with streams reset and released at will: what the application was given is a prefix of what was taken in if and only if held bytes were never given again although they had been; it is a prefix of what was written if and only if the peer wrote those bytes again, as often as they were given again, behind what was taken in; on a live stream they never are given again. |
| `Taking.GivenAgainExactly` | components/dokan/src/dokan_session.c:387-389 | Every time held bytes are given although they had been, the stream was reset, what was given is what was taken in followed by those bytes once for each time, no prefix of what was taken in any more, and a prefix of what was written if and only if the peer wrote them again as often behind it. |
| `Taking.EveryRoundGivesHeld` | components/dokan/src/dokan_session.c:387-389 | A reset stream keeps what it holds: n times pausing, resuming and returning gives the held bytes n times, with no re-entry. |
| `Cases.GivenTwice` | components/dokan/src/dokan_session.c:387-389 | A run of ten steps, from two fresh sessions, in which one byte is written and given twice. |
| `Cases.ResumedInItsCallback` | components/dokan/src/dokan_session.c:385-394 | A run of eight steps, from two fresh sessions, in which a callback resumes the stream whose held byte it is being given: the stream is live, one byte was written, and it was given twice. |
| `Answers.RefusedExactly` | components/dokan/src/dokan_session.c:211-298 | A session fails on exactly the frames an honest peer never sends in its state: wrong parity or length, a known or missing stream, a direction, an end or a window ignored, an unknown kind; it then raises the one error that belongs to it and changes nothing else. |
| `Answers.OversizeIsRefused` | components/dokan/src/dokan_session.c:314-314 | A header announcing more than 4096 bytes fails the session at once, and nothing behind it is looked at. |
| `Answers.FullTableAnswers` | components/dokan/src/dokan_session.c:215-220 | With all sixteen entries taken an OPEN is answered by a RESET carrying out of memory, and nothing else happens. |
| `Answers.OpenIsHeard` | components/dokan/src/dokan_session.c:331-345 | The frame an open sends makes a peer with room raise OPENED with the same kind and hint, on a stream it reads. |
| `Answers.WriteIsHeard` | components/dokan/src/dokan_session.c:347-361 | A write takes exactly the bytes that fit the window, and all of them go out, in frames of 4096 bytes but for the last. |
| `Answers.ResumeIsHeard` | components/dokan/src/dokan_session.c:379-397 | Resuming gives what was held, all at once, and then reports the end if it has come; nothing is held any more. That is for callbacks that call nothing. |
| `Answers.ResetIsHeard` | components/dokan/src/dokan_session.c:370-377 | The one frame a reset sends makes the peer mark that stream reset and raise RESET with the same reason. |
| `Answers.FinishIsHeard` | components/dokan/src/dokan_session.c:363-368 | The one frame a finish sends ends the stream at the peer, which raises FINISHED exactly if it is not paused and holds nothing back. |
| `Answers.DataIsHeard` | components/dokan/src/dokan_session.c:228-250 | A paused reader keeps the bytes behind those it holds and raises nothing; any other is given them as they came; either way they count against its window. |
| `Answers.ReleaseIsHeard` | components/dokan/src/dokan_session.c:399-408 | A released stream is forgotten, and a RESET without a reason is sent exactly if it was not over and the session is neither closing nor failed. |
| `Answers.CloseIsHeard` | components/dokan/src/dokan_session.c:568-578 | Closing sends one GOAWAY, unless one was sent or the session failed; the peer raises DISCONNECTED; no stream is opened afterwards. |
| `Answers.CreditIsHeard` | components/dokan/src/dokan_session.c:275-284 | The credit of a WINDOW frame is added to the window, and WRITABLE is raised exactly if it was shut, opens, and something may still be written. |
| `Callbacks.PerformPath` | components/dokan/src/dokan_session.c:138-150 | A call with its callbacks run inline, nested to any depth, is a sequence of the small steps the invariants are proved for. |
| `Callbacks.DispatchPath` | components/dokan/src/dokan_session.c:228-256 | So is a frame with the callbacks of its events. |
| `Callbacks.ProcessCounts` | components/dokan/src/dokan_session.c:286-298 | Processing a frame with all its callbacks counts exactly one frame and only adds to what was sent. |
| `Feed.ChunkingIndependence` | components/dokan/src/dokan_session.c:300-325 | Feeding bytes in any split gives the same session, events included, and the same leftover as feeding them whole. |
| `Feed.DrainInvertsFraming` | components/dokan/src/dokan_session.c:300-325 | Feeding the encoding of frames processes exactly those frames, in order. |
| `Feed.LeftoverFits` | components/dokan/src/dokan_session.c:301-323 | What waits for the rest of its frame is less than a whole buffer, so each turn of the loop takes at least one byte. |
| `Transport.HonestPeersNeverFail` | components/dokan/src/dokan_session.c:300-325 | Over bytes split at will, with calls and callbacks of any behaviour on both sides, no protocol error is ever reached and the two sessions stay linked. |
| `Sessions.Session.StreamOpen` | components/dokan/src/dokan_session.c:331-345 | The new state and the status of every branch: closing or failed, table full, opened with the next id. |
| `Sessions.Session.StreamWrite` | components/dokan/src/dokan_session.c:347-361 | Accepts as many bytes as fit the send window, sends them in chunks, and refuses remote, finished and reset streams. |
| `Sessions.Session.StreamFinish` | components/dokan/src/dokan_session.c:363-368 | Sends EOF once, and refuses remote, finished and reset streams. |
| `Sessions.Session.StreamReset` | components/dokan/src/dokan_session.c:370-377 | Sends RESET with the reason, once. |
| `Sessions.Session.StreamResume` | components/dokan/src/dokan_session.c:379-397 | Gives the held bytes to a callback, then credits them if the stream survived it, then reports the end if it has come. |
| `Sessions.Session.StreamRelease` | components/dokan/src/dokan_session.c:399-408 | Forgets the stream, with a RESET if it was still open. |
| `Sessions.Session.CloseSession` | components/dokan/src/dokan_session.c:568-578 | Sends GOAWAY once and stops everything else. |
| `Sessions.Session.CreditConsume` | components/dokan/src/dokan_session.c:197-202 | Grants all pending credit in one WINDOW frame once it is at least half the window, or one byte, and otherwise keeps it pending and sends nothing. |
| `Sessions.Session.HandleOpen` | components/dokan/src/dokan_session.c:211-226 | All five branches of an OPEN frame: bad id, bad length, known stream, table full, accepted. |
| `Sessions.Session.HandleData` | components/dokan/src/dokan_session.c:228-256 | All branches of a DATA frame, with the callback that may reset or release the stream before it is credited. |
| `Sessions.Session.HandleEof` | components/dokan/src/dokan_session.c:258-265 | All branches of an EOF frame; the end is reported only when nothing is held back. |
| `Sessions.Session.HandleReset` | components/dokan/src/dokan_session.c:267-273 | All branches of a RESET frame. |
| `Sessions.Session.HandleWindow` | components/dokan/src/dokan_session.c:275-284 | All branches of a WINDOW frame, with the 32-bit addition and the WRITABLE event. |
| `Sessions.Session.ProcessFrame` | components/dokan/src/dokan_session.c:286-298 | The object does for every frame what the state machine does, callbacks included. |
| `Inbound.InBuffer.ProcessBuffered` | components/dokan/src/dokan_session.c:309-319 | Processes the whole frames in the buffer and stops at an incomplete one, an oversize one, a failure or a close. |
| `Inbound.InBuffer.Feed` | components/dokan/src/dokan_session.c:300-325 | Session and waiting bytes after feeding are those of draining the waiting bytes and the new ones together. |
| `Flash.HeaderRoundTrip` | app/CardStore.cpp:243-249 | A header written by `commit` is valid and reads back as the index that was written. |
| `Flash.ValidExactly` | app/CardStore.cpp:37-40 | A header is valid if and only if its first eight bytes are the magic, the version and the blob count, and the next four its index's CRC, least significant byte first. |
| `Flash.BlobOpIsCrashSafe` | app/CardStore.cpp:226-231 | Erasing or programming at or beyond a cursor past every indexed blob is safe at every crash point, torn or complete. |
| `Flash.WipeIsCrashSafe` | app/CardStore.cpp:214-218 | Wiping the header sector is safe at every crash point and leaves every slot erased. |
| `Flash.CommitIsCrashSafe` | app/CardStore.cpp:243-253 | Writing a header into its slot is safe at every crash point, changes no other slot, and makes this one valid for that index. |
| `Flash.AdoptedIsIntact` | app/CardStore.cpp:131-141 | Any header the reader adopts indexes only blobs whose flash bytes are exactly those written for them, and matches the cache key if there is one. |
| `Flash.RecoversLastCommit` | app/CardStore.cpp:131-141 | Mounting after k commits adopts exactly the k-th header, and none for k = 0. |
| `Flash.RecoversAfterTornCommit` | app/CardStore.cpp:243-253 | A crash while the next header is written leaves the k-th header adopted, or the new one if its slot was completed. |
| `Flash.RecoversAfterTornWipe` | app/CardStore.cpp:214-218 | A crash while the header sector is wiped leaves nothing adopted or a header that was there before. |
| `Flash.LatestFoundExactly` | app/CardStore.cpp:131-141 | The latest header of a transaction, written whole, is adopted if and only if no slot before it is erased; otherwise an earlier one is, or none. |
| `Flash.SecondCommitUnseen` | app/CardStore.cpp:136-136 | In a wiped header sector whose first slot stayed blank, a second header written whole is valid and yet nothing is adopted. |
| `Flash.RecoversExactly` | app/CardStore.cpp:131-141 | In a transaction without a failed header write, whatever a power failure leaves at any moment of it, mounting adopts the last commit, or the next one if its slot was completed. |
| `Flash.SafeWhereverItFailed` | app/CardStore.cpp:214-253 | Whatever a power failure left at any recorded moment, the header adopted from it indexes intact blobs, written for the cached path. |
| `CardStore.Device.Erase` | app/CardStore.cpp:62-65 | Accepts only an erase that is safe at every crash point; the flash is then the erased one, or torn if the device fails, which is counted. |
| `CardStore.Device.Program` | app/CardStore.cpp:66-69 | Accepts only a write that is safe at every crash point, into erased bytes of the partition; a failure may leave it torn, and is counted. |
| `CardStore.LastValidSlot` | app/CardStore.cpp:131-141 | The loop over the slots finds the last valid header before the first erased one. |
| `CardStore.Store.ReloadHeader` | app/CardStore.cpp:131-141 | The cached header is exactly the adopted one, and invalid when there is none. |
| `CardStore.Store.ReadBlobRange` | app/CardStore.cpp:192-199 | Reads the requested range of the blob's bytes, cut at its length, and nothing without a header or past its end. |
| `CardStore.Writer.Begin` | app/CardStore.cpp:214-224 | Wipes the header sector before anything else and starts an empty transaction at the first blob sector; succeeds if and only if none is running and no device operation failed. |
| `CardStore.Writer.WriteBlob` | app/CardStore.cpp:226-241 | Writes the blob into freshly erased sectors at the cursor, indexes exactly its bytes, and moves the cursor past it; succeeds if and only if a transaction is running, the blob has a place in the index, is not empty and fits, and no device operation failed. |
| `CardStore.Writer.Commit` | app/CardStore.cpp:243-253 | Appends the header to the next slot, advances even when that write failed, and reports which: it succeeds if and only if a transaction is running, a slot is left and no device operation failed; a header that was written is found afterwards if and only if no earlier slot was left blank. |
| `CardStore.Writer.Abort` | app/CardStore.cpp:255-259 | Ends the transaction only if nothing was committed. |
| `CardStore.Serve` | app/CardStore.cpp:214-259 | Any sequence of begin, write_blob, commit and abort, whatever each returns: the partition is safe at every crash point of it, and of a transaction without a failed header write a power failure loses no commit. |
| `CardStore.SectorsFit` | app/CardStore.cpp:30-30 | Rounding up to sectors never leaves the partition. |
| `LastCard.PackRows` | app/Nvs.cpp:237-244 | The packed image holds pixel (x, y) of the source at y * w + x, also when the stride differs from the width. |
| `LastCard.PackedAt` | app/Nvs.cpp:241-242 | Every pixel of the packed image is the source pixel of its row and column. |
| `LastCard.SavePdf` | app/Nvs.cpp:224-233 | The key is set only after the PDF was committed; every failure leaves no key. |
| `LastCard.SaveDisplay` | app/Nvs.cpp:235-253 | A failed display image leaves the PDF commit and its key in force; without a device failure the cache holds the packed image, described by its width, height and levels, exactly if there is one and it fits behind the PDF. |
| `LastCard.SaveCache` | app/Nvs.cpp:210-254 | Across every device operation of it, hence at every crash point, a key of path p means that any adopted header holds what was written for p; without a device failure exactly the card is kept under its path: its PDF if it is a card, its image if it fits; nothing, and no key, if a card has no PDF that fits, or another file no image that fits. |
| `LastCard.Live` | app/Nvs.cpp:210-254 | The same over whole lives of the device: any series of saves, from whatever an earlier life left behind to a power failure at any moment, which loses no commit of a transaction without a failed header write. |
| `Screens.ShareStream.Read` | app/SharedCardData.cpp:31-45 | Reads at most what remains and fits, advances by what it got, latches an error on a short read, and gives nothing after one. |
| `Screens.TransferScreen.HelloMessage` | app/screens/TransferScreen.cpp:144-156 | The HELLO bytes: version, offer, accept, and the name cut to 200 bytes. |
| `Transfer.HelloSays` | app/screens/TransferScreen.cpp:144-156 | HELLO carries version 1, its flags as 0 or 1, the length of the name and the name, whole if it has at most 200 bytes. |
| `Transfer.CardAndAckAnnounced` | app/screens/TransferScreen.cpp:232-255 | The card is announced on a stream of kind 2 with its size as the hint; the ACK is a stream of kind 3 that ends at once. |
| `Transfer.ReadSays` | app/SharedCardData.cpp:31-45 | A read gives the next bytes of the share, and latches the error if and only if they are fewer than asked for and remaining. |
| `Screens.TransferScreen.SendHello` | app/screens/TransferScreen.cpp:140-172 | Sends HELLO once, in full or as far as the window goes, and fails if no stream can be opened. |
| `Screens.TransferScreen.PumpSend` | app/screens/TransferScreen.cpp:257-278 | The refill-and-write loop ends, with exactly the state of its specification. |
| `Screens.TransferScreen.MaybeSendAck` | app/screens/TransferScreen.cpp:246-255 | Acknowledges once, only after the peer's HELLO and everything expected has come. |
| `Screens.TransferScreen.ParsePeerHello` | app/screens/TransferScreen.cpp:213-244 | Decides both directions from the six leading bytes, opens the card stream, pumps, and acknowledges if nothing is expected. |
| `Screens.TransferScreen.OnStreamData` | app/screens/TransferScreen.cpp:185-196 | HELLO bytes are taken as far as the buffer goes; card bytes are stored as far as the disk goes, a short write being a failure. |
| `Screens.TransferScreen.OnStreamFinished` | app/screens/TransferScreen.cpp:198-207 | The end of HELLO is parsed; the end of the card closes the file and may acknowledge. |
| `Screens.TransferScreen.OnEvent` | app/screens/TransferScreen.cpp:118-133 | The object reacts to every event as its specification does. |
| `Screens.TransferScreen.Tick` | app/screens/TransferScreen.cpp:282-373 | One tick of `poll`; when it waits and when it ends, and with what verdict, is `Verdicts.EndsExactly`, and what the verdict means `Completion.VerdictMeans`. |
| `Verdicts.EndsExactly` | app/screens/TransferScreen.cpp:282-373 | The screen waits if and only if something is missing and nothing broke, or only the ACK is awaited; it ends without success if and only if something is missing and something broke, or all came and the file could not be placed; with success otherwise. |
| `Verdicts.PlacedOnce` | app/screens/TransferScreen.cpp:314-317 | The received file is put in its place once, at the first tick that finds it whole. |
| `Verdicts.NotedAtOnce` | app/screens/TransferScreen.cpp:118-133 | Every event leaves its mark for `poll`: a reset or an error and every callback that could not open a stream, create the file, store a byte or read its card is a failure, the peer's leaving a departure, and nothing else is. |
| `Verdicts.TroubleEnds` | app/screens/TransferScreen.cpp:282-373 | Whatever a side goes through: once it was told of a reset, of an error or of the departure from a session that was up, the next tick ends its screen, with success if and only if nothing is missing and the file was placed. |
| `Sending.HelloLoopSends` | app/screens/TransferScreen.cpp:164-171 | A HELLO that fits the window goes out whole; a longer one is cut at the window and the loop gives up. |
| `Sending.PumpSendKeeps` | app/screens/TransferScreen.cpp:257-278 | At every stop of the pump, what was written and what is buffered are exactly what was read of the share PDF, and the stream is finished only at its end. |
| `Sending.PumpStopsWithReason` | app/screens/TransferScreen.cpp:257-278 | The pump stops only because the card is sent, cannot be read, or the window is shut with bytes left. |
| `Carrying.LowerStep` | components/dokan/src/dokan_session.c:286-298 | For an application that never pauses, a session step keeps what was asked of it and raises at most one event, never data or an end after an end. |
| `Hearing.HeardData` | app/screens/TransferScreen.cpp:185-196 | The HELLO buffer is the first 256 bytes of the peer's HELLO stream, and the file exactly what can be stored of the bytes read of its card: nothing if it could not be created, what fits the disk otherwise. |
| `Exchange.HelloIsHeard` | app/screens/TransferScreen.cpp:213-223 | The end of the peer's HELLO comes once, and then all of it that fitted the window has been heard. |
| `Exchange.HandleKeeps` | app/screens/TransferScreen.cpp:118-133 | Handling any event keeps the invariant of the pair of sides. |
| `Exchange.LowerKeeps` | components/dokan/src/dokan_session.c:286-298 | Any step of a session keeps the invariant of the pair of sides. |
| `Agreement.ExchangeKeeps` | app/screens/TransferScreen.cpp:118-133 | Every run of the two sides keeps that invariant. |
| `Agreement.AckSafety` | app/screens/TransferScreen.cpp:246-255 | Over every run: a side that sends its card and has the peer's ACK has finished it, the peer was handed exactly bytes [0, end) of the share PDF, and its file holds exactly what of them could be stored; closing on the ACK truncates nothing. |
| `Agreement.AckedIsStoredExactly` | app/screens/TransferScreen.cpp:174-207 | An acknowledged card is in the peer's file, whole, if and only if the file could be created and the disk had room, or there is nothing in it; without a file it is acknowledged all the same. |
| `Agreement.CompleteMeansWhole` | app/screens/TransferScreen.cpp:198-207 | A card received to its end is the peer's share PDF, whole. |
| `Agreement.AckMeansReceived` | app/screens/TransferScreen.cpp:246-255 | An ACK was sent only after the peer's HELLO, with everything it expects received. |
| `Agreement.BlockedPumpIsWoken` | app/screens/TransferScreen.cpp:276-276 | A pump that stopped on a full window is woken by WRITABLE in any run that opens the window again. |
| `Intactness.RaisedWhileOpen` | components/dokan/src/dokan_session.c:518-527 | No event is raised by a session that is closing, so the application's callbacks can always open their streams. |
| `Settling.FewStreams` | components/dokan/src/dokan_session.c:334-334 | Each side of an exchange opens at most three streams, so neither stream table of sixteen fills up. |
| `Settling.HandleLively` | app/screens/TransferScreen.cpp:118-133 | Handling any event keeps what makes the exchange come to its end: HELLO and ACK go out whole, cards start whenever they should, and a pump that stopped is waiting for its window or for a WRITABLE just raised. |
| `Settling.LowerLively` | components/dokan/src/dokan_session.c:286-298 | So does any step of a session. |
| `Completion.ExpectedExactly` | app/screens/TransferScreen.cpp:225-239 | Over every run: a side sends its card if and only if it offers one, has one, and the peer wants it and was told; so a side waits for a card that never comes if and only if the other offers one and has none. |
| `Completion.NeverComes` | app/screens/TransferScreen.cpp:225-239 | In every such run the peer expects the card, never completes, never acknowledges, and its screen waits for as long as nothing fails and nobody leaves. |
| `Completion.VerdictMeans` | app/screens/TransferScreen.cpp:340-372 | What the verdict says, whatever ended the screen: it is success if and only if its own bytes were all written, the peer's card came whole and was placed, and the ACK, a departure, a failure or the timeout ended it, or nothing was to be sent; with the ACK the peer has its card; failure has one of three causes. |
| `Unacked.SucceedsUnacked` | app/screens/TransferScreen.cpp:340-361 | For every card that can be sent one way there is a run after which the sender's screen reports success on its timeout although the peer was never handed the card, and another that leaves the sender in the same state although it was: short of the ACK nothing tells them apart. |
| `Completion.EndingIsSafe` | app/screens/TransferScreen.cpp:314-361 | Whatever was finalized had been received whole, however the screen ends; an undisturbed ending also means that its own card was handed over. |
| `Completion.WaitsExactly` | app/screens/TransferScreen.cpp:282-373 | Over every run: undisturbed, `poll` waits if and only if the peer's HELLO, the peer's card or the ACK of its own card is missing. |
| `Completion.RestMeansDone` | app/screens/TransferScreen.cpp:213-278 | Two connected sides whose cards could be read, with nothing in flight and every event handled, have read each other's HELLO, sent and received every agreed card whole, and acknowledged each other, unless one offered a card it does not have. |
| `Completion.RestMeansOver` | app/screens/TransferScreen.cpp:340-361 | Then both screens end of themselves. |
| `Termination.RunsAreBounded` | app/screens/TransferScreen.cpp:118-133 | Every run is bounded: its steps are no more than what there is to send allows, plus what coming up and closing add. |
| `Termination.CanFinish` | app/screens/TransferScreen.cpp:118-133 | For every two configurations there is a run in which both sides come up and everything agreed is exchanged. |
| `Termination.OfferedInVain` | app/screens/TransferScreen.cpp:225-239 | For every side that offers a card it does not have there is a run, to its very end, after which the peer still expects the card. |
| `Termination.AckedUnstored` | app/screens/TransferScreen.cpp:174-207 | For every side that cannot create the file there is a run in which the peer's card is acknowledged and nothing is stored. |
| `Termination.ReadableNeverStuck` | app/SharedCardData.cpp:31-45 | A card whose file can be read to the end of what is shared never makes the pump give up. |
| `Codec.EncodeBase64Url` | components/dokan/src/dokan_codec.c:12-37 | Writes the unpadded base64url text of section 5 of RFC 4648, or nothing if it does not fit; the rest of the buffer is untouched. |
| `Codec.DecodeBase64Url` | components/dokan/src/dokan_codec.c:48-79 | Succeeds exactly on decodable texts that fit, with the decoded bytes; the rest of the buffer is untouched. |
| `Codec.DecodesExactly` | components/dokan/src/dokan_codec.c:39-79 | Decodable are exactly the texts over the alphabet that are not one symbol too long. |
| `Codec.AlphabetIs` | components/dokan/src/dokan_codec.c:8-9 | The alphabet of table 2 of RFC 4648. |
| `Codec.KnownTexts` | components/dokan/test/test_descriptor.c:54-58 | Known texts: three bytes of ones, and two bytes that need the last two symbols of the alphabet. |
| `Codec.DecodeInvertsEncode` | components/dokan/src/dokan_codec.c:12-79 | Decoding inverts encoding for every byte sequence. |
| `Codec.EncodeInvertsDecode` | components/dokan/src/dokan_codec.c:67-76 | Encoding gives a decoded text back if and only if the unused bits of its last symbol are zero: the decoder takes several spellings. |
| `Codec.TwoSpellings` | components/dokan/src/dokan_codec.c:67-76 | AA and AB both decode to the zero byte, which is encoded as AA. |
| `Base32.Encode` | components/dokan/src/dokan_codec.c:81-99 | Writes the big-endian regrouping of the input bits in fives, zero-padded, of section 6 of RFC 4648, or nothing if it does not fit, for any input length. |
| `Base32.AlphabetIs` | components/dokan/src/dokan_codec.c:10-10 | The alphabet of table 3 of RFC 4648. |
| `Base32.KnownText` | components/dokan/test/test_descriptor.c:68-71 | The text of the six letters of foobar. |
| `Base32.ShiftIn` | components/dokan/src/dokan_codec.c:89-90 | The pending bits survive the 32-bit overflow of the accumulator. |
| `Base32.SymbolGoesOut` | components/dokan/src/dokan_codec.c:91-94 | Each symbol is the next five pending bits. |
| `Crc.ComputeCrc8` | components/dokan/src/dokan_codec.c:101-109 | The two loops compute the CRC-8 register function. |
| `Crc.CheckValue` | components/dokan/test/test_descriptor.c:73-73 | The CRC of the digits 1 to 9 is 0xF4. |
| `Crc.CrcIsLinear` | components/dokan/src/dokan_codec.c:101-109 | The CRC of the difference of two messages is the difference of their CRCs. |
| `Crc.CrcIsInjective` | components/dokan/src/dokan_codec.c:101-109 | Different registers stay different over the same data: the byte step is a bijection. |
| `Crc.CheckByte` | components/dokan/src/dokan_codec.c:101-109 | A message followed by a byte has CRC zero if and only if that byte is its CRC. |
| `Crc.BurstIsNoticed` | components/dokan/src/dokan_codec.c:101-109 | An error in two neighbouring bytes changes the CRC unless the second undoes the step of the first. |
| `Descriptor.Encode` | components/dokan/src/dokan_descriptor.c:22-47 | Every branch in order, and on success the header, the base64url of parameters and CRC, and the NUL. |
| `Descriptor.ParseDescriptor` | components/dokan/src/dokan_descriptor.c:49-75 | Every branch in order, and on success the transport and the parameters; the output is untouched otherwise. |
| `Descriptor.RejectedExactly` | components/dokan/src/dokan_descriptor.c:53-75 | Which error each refused text gives, for all texts: its length, version, application, spelling, CRC, or the room for the parameters. |
| `Descriptor.KnownDescriptor` | components/dokan/src/dokan_descriptor.c:22-47 | The descriptor of one zero byte over Wi-Fi, as text. |
| `Descriptor.ParseInvertsEncode` | components/dokan/src/dokan_descriptor.c:22-75 | Parsing takes back what was encoded, for every printable id and 1 to 48 parameter bytes, if and only if the transport is not the NUL that would end the string. |
| `Descriptor.AcceptedExactly` | components/dokan/src/dokan_descriptor.c:53-75 | A text is accepted with given parameters if and only if its header matches and its rest decodes to them followed by their CRC. |
| `Descriptor.SubstitutionSpoils` | components/dokan/src/dokan_descriptor.c:61-63 | One wrong symbol spoils nothing, one byte, or two neighbouring bytes in a way the CRC cannot confuse. |
| `Descriptor.OneWrongCharacter` | components/dokan/src/dokan_descriptor.c:49-75 | Any single wrong character in the base64url part of an accepted descriptor is rejected, or decodes to the identical body, unless it is the NUL that ends the C string early: that is accepted, with fewer parameters, if and only if the body left over is nonempty and has CRC zero. |
| `Descriptor.CutShort` | components/dokan/src/dokan_descriptor.c:54-73 | An accepted descriptor that is cut short anywhere is accepted if and only if what is left of its body is nonempty and has CRC zero. |
| `Descriptor.NulGoesUnnoticed` | components/dokan/src/dokan_descriptor.c:54-73 | For every id and transport, the descriptor of the parameters 0 and p < 16 with a NUL as its third symbol is accepted as one without parameters. |
| `Sha256.Transform` | components/dokan/src/dokan_sha256.c:29-46 | The in-place block transform is the compression function: schedule, 64 turns, feed-forward. |
| `Sha256.ChIsChoice` | components/dokan/src/dokan_sha256.c:26-26 | Wherever the first word has ones the function gives the second, and wherever it has zeros the third. |
| `Sha256.MajIsMajority` | components/dokan/src/dokan_sha256.c:27-27 | Wherever two of the three words agree the function gives what they agree on. |
| `Roots.KIsCubeRoots` | components/dokan/src/dokan_sha256.c:9-18 | Each of the 64 constants is the first 32 bits of the fraction of the cube root of the prime at its place. |
| `Roots.H0IsSquareRoots` | components/dokan/src/dokan_sha256.c:49-52 | Each of the eight initial words is the first 32 bits of the fraction of the square root of the prime at its place. |
| `Roots.PrimesAre` | components/dokan/src/dokan_sha256.c:9-18 | The table of primes has every prime up to 311 and nothing else. |
| `Roots.PrimesAscend` | components/dokan/src/dokan_sha256.c:9-18 | And has them in ascending order. |
| `AbcDigest.HashOfAbc` | components/dokan/test/test_descriptor.c:39-42 | The hash of abc, as a literal, worked out through schedule, 64 turns and padding. |
| `Sha256.Context.Update` | components/dokan/src/dokan_sha256.c:57-66 | After any updates the context stands for everything given: whole blocks absorbed, the rest buffered, the bit count modulo 2^64. |
| `Sha256.Context.Final` | components/dokan/src/dokan_sha256.c:68-86 | The digest is that of the padded message of section 5.1.1 of FIPS 180-4, through both padding branches. |
| `Sha256.PaddedTail` | components/dokan/src/dokan_sha256.c:70-78 | The one or two last blocks the code builds are the end of the padded message. |
| `Sha256.LengthFieldSpells` | components/dokan/src/dokan_sha256.c:77-77 | The eight length bytes spell the bit count, most significant first. |
| `Sha256.HashOf` | components/dokan/src/dokan_sha256.c:88-93 | The one-shot hash. |
| `Sha256.HashOfChunks` | components/dokan/src/dokan_sha256.c:57-86 | The hash does not depend on how the input is split into updates. |
| `Glyphs.CellCover` | app/lv_glyph_font.hpp:95-105 | The two inner loops compute the area of set source bits under a destination cell, visiting only cells in bounds. |
| `Glyphs.Render` | app/lv_glyph_font.hpp:88-108 | Every pixel of the target box is the rounded grey of its cell, in 0..255. |
| `Glyphs.WeightsAddUp` | app/lv_glyph_font.hpp:97-103 | The overlap weights of each destination cell add up to exactly sw * sh. |
| `Glyphs.CoverFits` | app/lv_glyph_font.hpp:102-106 | No cell is covered more than once, so each output fits a byte. |
| `Glyphs.InkIsConserved` | app/lv_glyph_font.hpp:93-108 | Summed over all cells, the cover is dw * dh for every set source bit. |
| `Glyphs.UnscaledIsExact` | app/lv_glyph_font.hpp:77-82 | Without scaling the outputs are exactly 0 and 255. |
| `Glyphs.UnscaledSpells` | app/lv_glyph_font.hpp:84-87 | Unscaled, the outputs of each eight pixels in a row spell the packed byte, first pixel most significant, and those of the last byte as much of it as is used. |
| `Glyphs.GreyIsNearest` | app/lv_glyph_font.hpp:106-106 | Each output is the integer nearest to 255 times cover over area, a half rounded up. |
| `Glyphs.OverlapCounts` | app/lv_glyph_font.hpp:97-103 | The overlap of two cells is the number of ticks of the one that lie in the other. |
| `Glyphs.IndexInBounds` | app/lv_glyph_font.hpp:84-87 | Every source bit read lies in the packed bitmap. |
| `Glyphs.FitsIn32Bits` | app/lv_glyph_font.hpp:90-106 | No product or sum of a cell's computation exceeds 32 bits: the bounds of its cells, the overlaps, their product, the cover and the rounding. |
| `Glyphs.ScaledIsNearest` | app/lv_glyph_font.hpp:113-116 | Scaling rounds to the nearest integer, half away from zero, symmetrically in the sign. |
| `Glyphs.Find` | app/lv_glyph_font.hpp:119-128 | The binary search finds the glyph of a code point, and nothing exactly when there is none. |
| `Weekday.WeekdayMovesOn` | app/screens/DateTimeScreen.cpp:14-29 | The weekday of the next day is one further, across month ends, leap days, year ends and centuries, for every date from the year 1 on. |
| `Weekday.WeekdayIsDayCount` | app/screens/DateTimeScreen.cpp:25-29 | The weekday is the day count since 1 January of the year 1, plus one, modulo seven. |
| `Weekday.KnownDays` | app/screens/DateTimeScreen.cpp:14-29 | Three known days, one of them a leap day and one behind a century without one. |

## Left out

- Failing allocation: `enqueue` then drops the frame and fails the session without an event, and an OPEN or a paused DATA frame raises an error.
- Pointers and the linked stream table: streams are named by id in a map, so a duplicate id after the counter wraps, and a stream pointer used after its release, are not modelled.
- The capacity of the held-data buffer (`rx_cap`) and its growth; its contents are a sequence.
- The reason of a RESET is kept as the raw 32-bit value rather than as a signed error code.
- Null arguments of the public calls, and a session without an event callback.
- Locks, tasks, sockets, Wi-Fi bring-up, and the teardown in `dokan_close` after GOAWAY; transport errors (`host_on_error`).
- `read_blob` and memory-mapped images; the simulator's backing file, which is never torn.
- CardStore.Writer.WriteBlob: does not model blobs so long that offset plus length exceeds 32 bits, because `PART_SIZE` is far below that.
- The RAM copy of the clean-resume flag and the other keys of non-volatile storage.
- The peer's name in HELLO, progress counters, the bar, file naming and the choice of the received file's place in `poll`; `Screens.TransferScreen.Tick` takes the outcome of the latter as an input.
- Resetting and releasing by the exchange: the screen does neither before it closes.
- Generating descriptors (`dokan_descriptor_create`) and the Wi-Fi parameters and random seed in them.
- Run-length decoding of glyphs: the bitmap is taken as decoded.
- The date-picker logic around the calendar (`clampDay` and the step buttons).
- All drawing, fonts, strings, navigation, image processing and the PDF format.
