# Little Monkey Studio: long-video recovery, proved in Dafny

This project models the crash-resumable long-video engine of the repository and the smaller components around it, and proves what they are for. Verify it with `dafny verify dfyconfig.toml`.

## What is modelled

A film is rendered as overlapping windows. Each window protects the last 22 frames (36 or 37 audio ticks) of the one before it, is denoised step by step, is decoded, loses its overlap and is appended to the film; the audio seam is repaired in place. A process may die after any single disk operation. Two stores survive it: two alternating step-checkpoint slots per stage, and a per-window segment cache whose marker is written last. A two-pass render also keeps a preview file per window.

| file | what it holds |
|---|---|
| `Clock.dfy` | the 24-fps, 40-Hz and 32-kHz clocks, window by window and over chains of runs |
| `Seam.dfy` | the two length-preserving seam repairs, as functions and in place on arrays |
| `Contexts.dfy` | AV tails: capture, validation, and the byte stream their digest is taken of |
| `Disk.dfy` | a directory with temporary files and renames, and the trace of every directory a crash could leave |
| `Prefix.dfy` | the protected rows of a continued window and their clocks |
| `StepStore.dfy` | the denoising loop over its two checkpoint slots |
| `SegmentCache.dfy` | save, load and discard of finished windows; the byte budget |
| `Render.dfy` | the loop over windows, sampled or recovered, and the run that never crashes |
| `Film.dfy` | every frame and sample of a film traced back to the window that decoded it |
| `Recovery.dfy` | the state machine of process and disks under crashes, restarts and decay; the main theorem |
| `Example.dfy`, `Mixture.dfy` | a concrete engine that meets every assumption, and one with a history that delivers no uninterrupted film |
| `StepIdentity.dfy` | the settings of a sampling stage and the stream its identity is taken of |
| `Session.dfy` | one session as an imperative program over arrays and a real cache object |
| `ContextStore.dfy` | the snapshot from which the next film continues |
| `Continuations.dfy` | a film and any number of continuations, through snapshots and joins |
| `Chain.dfy` | the streamed join of a film and its continuation |
| `Tiling.dfy`, `Upscale.dfy`, `StreamDecode.dfy` | tiled forms against whole forms: attention, upscaling, decoding |
| `ShardHooks.dfy` | weights hydrated and evicted around nested, failing forward calls |
| `MemoryPlan.dfy` | the memory-tier planner, the disk budget and the retry ladder |
| `ProcessTree.dfy` | the two process-tree closure loops |
| `Sse.dfy` | the streaming `data:` reader and the printer it reads back |

## Main results

* `Recovery.EveryHistoryIsUninterrupted`: every history of crashes, restarts, lost or damaged files, cache hits and processes under changing settings that finishes delivers the frames, the repaired soundtrack and both tails of a run that never crashed, each window of which was previewed and refined under some settings. The one condition is that no refinement resumes from a checkpoint that is not a point of the trajectory from its own preview. It always holds in a single pass and where previews do not depend on the settings (`Recovery.SafeUnlessLoose`), when the refinements that resume find no step they would accept (`Recovery.FreeIsSafe`), and when no preview is saved over a step that some run would take for a step of it (`Recovery.OwnIsSafe`, `Recovery.KeepFreeIsSafe`).
* `Recovery.StepKeepsInv` adds that only a crash ever ends a process, and `Recovery.Completes` that from every world of such a history a process that does not crash finishes, or comes to such a resume; `Recovery.EveryHistoryCanFinish` that every history can be finished where the condition always holds.
* `Mixture.SomeHistoryIsMixed`: the condition is needed. A lawful engine has a finished history of three sessions from empty disks whose film no uninterrupted run gives.
* `Continuations.EveryChainIsExact`: over any number of continuations every source is lawful, every snapshot reloads, no join raises, and frames and samples are exact; `Continuations.TakesAreInPlace` and `Continuations.ExtendedCut` add where every frame and sample of every take ends up.
* `Clock.ChainNeverDiverges` and `Clock.ToleranceIsTight`: over chains of any length the decoded audio stays within one latent of the wanted audio, and that tolerance is met exactly.
* `StepStore.HistoryTruthful`, `StepStore.CrashCostsOneStep`, `SegmentCache.LoadedWasSaved`, `SegmentCache.BudgetHolds`: the two crash protocols on their own.
* `Film.FilmIsItsWindows`, `Film.SoundtrackIsItsWindows` and `Film.TailsAreItsWindows`: what such a film contains, frame by frame and sample by sample, and what it hands on.
* `Contexts.PairStreamInjective`: the separator-free digest input determines both tails.
* `Tiling.NativeH3Attention`, `Chain.JoinAudio`, `StreamDecode.IterVideoChunks`: streamed or tiled forms equal their whole forms; `StreamDecode.TimelineIsDecoded` says what the timeline then shows. The upscaler's chunks do not: `Upscale.TotalWeight` and `Upscale.AgreementIsKept` say that its blend is well defined and keeps what the segments agree on, `Upscale.SeamIsCrossedEvenly` how it passes from one to the next, and `Upscale.SeamlessIffClear` exactly where chunking can show.

## What turned out otherwise

* A refinement checkpoint of a two-pass window is not bound to the preview it refines: `studio_vdn_sampler.py:196` hashes the preview only for a stage named `refine`, and the stages of a window are named `temporal_N_refine`. A preview that is lost and sampled again under other settings may therefore be refined, back under the first settings, from the steps of the old one. `Recovery.RefinementIsNotBoundToPreview` states what a restart then delivers, and `Mixture.SomeHistoryIsMixed` gives such a history.
* The cache does not tell single-pass from two-pass windows: `Recovery.InputsAliasIff` lists what it does tell apart, and `Recovery.PassesShareTheCache` shows a window of one job loaded by the other. The main theorem speaks of one job per cache directory.
* The two library versions are joined without a separator in the stage digest. The digest determines everything else (`StepIdentity.StageStreamInjective`, `StepIdentity.SettingsTextIff`), and the versions if and only if the first ones are equally long (`StepIdentity.SameSettingsIff`); otherwise other settings have the same stream (`StepIdentity.VersionsCanAlias`). The main theorem is about processes whose settings do not alias.
* A state file over 64 MiB is refused only after it was written, so it counts towards the directory until then (`SegmentCache.BudgetHolds`). With headers of up to 60 MiB it never is (`SegmentCache.BudgetIsPlain`).
* The upscaler's segments never hold a frame after their view (`Upscale.ContextIsOneSided`), because the padding moves both ends of the slice the same way. Chunking never shows at a frame, for all networks of radius r and all clips, if and only if every chunk that covers it surrounds it by r frames in clip and segment, or has the whole clip for its segment (`Upscale.SeamlessIffClear`); throughout a chunked clip only for radius 0 (`Upscale.SeamlessOnlyForRadiusZero`). For networks that look at all frames, as the released one does through its group normalization, only the second case is left (`Upscale.AlwaysSeamlessIff`).
* Incremental decoding can reach a clip past the end of its latent; for latents of every length this never happens if and only if no more than a chunk is dropped (`StreamDecode.InsideIffSmallDrop`).
* A module that re-enters itself loses its weights, since the after-hook runs even when the before-hook refused; the loaded modules are exactly those being called if and only if no forward swallows such a refusal (`ShardHooks.LoadedIsPathIff`).
* The `Ambiguous LoRA target` branch can never be taken (`ShardHooks.TargetIsNeverAmbiguous`).

## Assumptions

* SHA-256 is injective: a digest is the constructor `Sha256` of what it was taken of. File-name uniqueness (`uuid4`) is not assumed; temporary names are arbitrary.
* A rename is atomic; a write becomes visible byte by byte in its temporary file; synced data survives. Files decay only while no process runs, and then data files may change at will while markers, previews and checkpoints can be lost or made to fail their own digest.
* A sampler is a deterministic function of its settings, part, tail and preview. Settings are the placement tier, the tiling knobs and the two library versions; a process keeps those it was launched under. A step keeps row counts and the conditioning rows. An F-frame window has F frames, `audio_origin(F)` audio latents and 800 samples per latent.
* One job owns a cache directory and its checkpoint slots. A film and its continuations have at most 10000 frames together, the limit of the join (`studio_vdn_chain.py:17`).
* A digest inside a digested stream is one indivisible symbol of it.
* PCM, fades, blends and attention are over `real`, one channel at a time; frames, ticks, samples and bytes are integers. `int(x * .15)` and the like are integer divisions.
* The library's norm, rotary, attention, output, feed-forward and refinement networks are arbitrary functions; where tiling relies on them treating tokens separately, the contract says so.
* Text numbers in metadata are the numbers Python's `int` reads from them, if any.
* A raising forward raises an `Exception`, for which PyTorch runs `always_call` hooks even after a failing pre-hook.

## Model

| member | source | states |
|---|---|---|
| `Clock.TickError` | scripts/studio_vdn_temporal.py:37-41 | `audio_origin` is the nearest tick: it misses the exact 5/3 ticks per frame by at most a third of a tick |
| `Clock.SampleError` | scripts/studio_vdn_temporal.py:52-55 | `emitted_audio_samples` is the nearest sample: at most a third of a sample off the exact 4000/3 per frame |
| `Clock.ContextIs36Or37` | scripts/studio_vdn_temporal.py:85-103 | a captured audio context is 36 or 37 ticks wherever the window starts and however long it is |
| `Clock.FirstWindowNear` | scripts/studio_vdn_temporal.py:416-419 | the first window of a continuation decodes between 534 samples too few and 800 too many, for either tail length |
| `Clock.LaterWindowNear` | scripts/studio_vdn_temporal.py:416-419 | later windows stay within 534 samples |
| `Clock.WindowAudio` | scripts/studio_vdn_temporal.py:58-71 | no audio check fires for an aligned window |
| `Clock.WindowStaysAligned` | scripts/studio_vdn_temporal.py:407-438 | one pass of the loop raises nothing, lands on the rounded sample of its frames, keeps a 36- or 37-tick tail and stays aligned |
| `Clock.WindowsStayAligned` | scripts/studio_vdn_temporal.py:234-457 | the same for any number of windows, and the frames they deliver |
| `Clock.ChainNeverDiverges` | scripts/studio_vdn_temporal.py:216-219 | over any chain of runs with any lengths no clock check fires, samples are the rounded samples of the frames, and frames are the windows less one overlap each |
| `Clock.ToleranceIsTight` | scripts/studio_vdn_temporal.py:63-64 | a reachable 158-frame film continued by a 124-frame window decodes exactly 800 samples too many |
| `Clock.PlanIsChain` | scripts/studio_vdn_temporal.py:44-49 | the planned frame count is what the windows of one run deliver |
| `Clock.ChildWithinOneSample` | scripts/studio_vdn_chain.py:240-242 | the piece a child appends is within one sample of its own clock |
| `Clock.PiecesTelescope` | scripts/studio_vdn_chain.py:240-242 | over any number of continuations the appended pieces add up to exactly the rounded samples of all frames |
| `Seam.WindowSeam` | scripts/studio_vdn_temporal.py:73-81 | a window seam keeps lengths, moves only the n samples at the cut and leaves exactly 1/(n+1) of the jump |
| `Seam.WindowSeamIsEven` | scripts/studio_vdn_temporal.py:76-81 | the repair is an even ramp: the k-th sample from the outer end of the fade moves k of n+1 shares of the shift |
| `Seam.ChainSeam` | scripts/studio_vdn_chain.py:154-163 | the same for a film seam |
| `Seam.ChainSeamIsEven` | scripts/studio_vdn_chain.py:159-162 | the film seam is an even ramp too: the k-th sample from the outer end of the fade moves k of n+1 shares of its own way to the midpoint, which is as far from one side of the cut as from the other |
| `Seam.ChainSeamStaysBetween` | scripts/studio_vdn_chain.py:154-163 | every moved sample stays between its old value and the midpoint |
| `Seam.RepairWindowSeam` | scripts/studio_vdn_temporal.py:73-81 | the in-place loops compute that seam on both arrays |
| `Seam.SmoothSeam` | scripts/studio_vdn_chain.py:154-163 | the in-place film seam, empty sides included |
| `Seam.Normalize` | scripts/studio_vdn_temporal.py:65-71 | exactly the wanted length: a prefix, or the samples and the last one repeated |
| `Seam.TemporalAudioWindow` | scripts/studio_vdn_temporal.py:58-82 | when it raises, and otherwise both the returned window and the previous one changed in place |
| `Contexts.CaptureIsValid` | scripts/studio_vdn_temporal.py:85-103 | a captured tail has the shape, origins and tick count that validation asks for, and its bytes are those that end the window |
| `Decimal.StrInjective` | scripts/studio_vdn_temporal.py:115-116 | decimal text determines the number |
| `Decimal.StrReadsBack` | scripts/studio_vdn_temporal.py:115-116 | only digits, and those of the number |
| `Contexts.DigitSplit` | scripts/studio_vdn_temporal.py:115-116 | the audio origin is as long as the frame origin or one digit longer, so the digit count fixes the split |
| `Contexts.StreamInjective` | scripts/studio_vdn_temporal.py:113-116 | with tick and digit counts known, one context is read back from its stream |
| `Contexts.PrefixStreamInjective` | scripts/studio_vdn_temporal.py:133-138 | the digest of a sampler prefix determines the tail |
| `Contexts.PairStreamInjective` | scripts/studio_vdn_temporal.py:106-117 | the separator-free stream of `native_context_hash` determines both tails, absent ones included |
| `Contexts.PairIsPredecessor` | scripts/studio_vdn_temporal_store.py:85-98 | a validated pair of tails of equal length is such a predecessor |
| `Disk.WriteIsAtomic` | scripts/studio_vdn_segment_cache.py:50-60 | at every byte of an atomic write every published name reads as before, until the rename publishes exactly the new content |
| `Disk.Directory.WriteAtomic` | scripts/studio_vdn_temporal_store.py:47-62 | the directories it passes through, in order |
| `Disk.Directory.WriteFails` | scripts/studio_vdn_temporal_store.py:47-62 | a write that fails leaves the directory without its temporary file |
| `Prefix.Bind` | scripts/studio_vdn_temporal.py:140-149 | accepted offsets leave both audio ranges inside the block with rows to generate, and the stride halves the generated rows |
| `Prefix.BindIff` | scripts/studio_vdn_temporal.py:140-149 | offsets are accepted if and only if both prefixes leave rows to generate and the audio rows split evenly |
| `Prefix.ChannelsDisjoint` | scripts/studio_vdn_temporal.py:151-155 | no row is protected for both channels |
| `Prefix.RestoreProtects` | scripts/studio_vdn_temporal.py:157-170 | restoring puts the saved prefix in all three ranges and touches no other row |
| `Prefix.RestoredRow` | scripts/studio_vdn_temporal.py:157-170 | which saved row each protected row gets, in all three ranges |
| `Prefix.ProtectedIffFixed` | scripts/studio_vdn_temporal.py:157-170 | a block is protected if and only if restoring changes nothing |
| `Prefix.RestoreIdempotent` | scripts/studio_vdn_temporal.py:157-170 | restoring twice is restoring once |
| `Prefix.Restore` | scripts/studio_vdn_temporal.py:157-170 | the in-place range writes compute the restored block, and the rows the model was last called with hold the prefix too |
| `Prefix.Unique` | scripts/studio_vdn_temporal.py:187-188 | the distinct values, strictly increasing |
| `Prefix.RebuildTimes` | scripts/studio_vdn_temporal.py:172-189 | when the layout is refused; otherwise protected rows read time 1 and every other row its old time through the rebuilt table |
| `Prefix.Before` | scripts/studio_vdn_temporal.py:172-195 | the whole hook: refused layouts touch nothing; otherwise the model's rows are restored and the times rebuilt |
| `StepStore.TrajectoryProtected` | scripts/studio_vdn_sampler.py:240-262 | the prefix rows hold the saved prefix after every step |
| `StepStore.ResumeIsExact` | scripts/studio_vdn_sampler.py:223-241 | rebuilding the block from a checkpoint and restoring the prefix gives the uncrashed block |
| `StepStore.LevelIff` | scripts/studio_vdn_sampler.py:80-112 | a slot is accepted if and only if it is, whole and undamaged, what a save of that step under the same key writes |
| `StepStore.BestSlot` | scripts/studio_vdn_sampler.py:80-112 | the greatest valid slot sits in the slot of its parity, is ahead of the other and holds the uncrashed rows |
| `StepStore.CommitLevels` | scripts/studio_vdn_sampler.py:122-151 | a commit keeps the slots truthful, raises the best step by one and keeps the step before it |
| `StepStore.AfterLevels` | scripts/studio_vdn_sampler.py:19-25 | any number of commits |
| `StepStore.CrashCostsOneStep` | scripts/studio_vdn_sampler.py:122-151 | a crash at any operation of any commit leaves truthful slots and loses only the step in flight |
| `StepStore.OneDamagedSlotCostsOneStep` | scripts/studio_vdn_sampler.py:80-112 | damage to one slot costs at most one more step, and none if it is the older one |
| `StepStore.HistoryTruthful` | scripts/studio_vdn_sampler.py:203-264 | slots are truthful after every history of crashes, restarts and decay |
| `StepStore.NativeStepStore.Latest` | scripts/studio_vdn_sampler.py:80-112 | returns the greatest acceptable slot and its rows, or nothing |
| `StepStore.NativeStepStore.Save` | scripts/studio_vdn_sampler.py:122-151 | when it raises, the directories it passes through and the one it leaves |
| `StepStore.NativeStepStore.Clear` | scripts/studio_vdn_sampler.py:153-155 | both slots are gone, one after the other |
| `StepStore.NativeStepStore.Resume` | scripts/studio_vdn_sampler.py:223-241 | starts at the best step with the uncrashed block of that step |
| `StepStore.NativeStepStore.CommitStep` | scripts/studio_vdn_sampler.py:245-260 | one step, prefix restored, committed |
| `StepStore.NativeStepStore.RunWithCheckpoints` | scripts/studio_vdn_sampler.py:203-264 | from any truthful slots the loop ends with the uncrashed block, and every directory on the way is a crash point covered above |
| `SegmentCache.LoadIsCommitted` | scripts/studio_vdn_segment_cache.py:126-168 | whatever became of the data files, a marker yields its own payload for its own inputs, or the load fails |
| `SegmentCache.CommittedLoads` | scripts/studio_vdn_segment_cache.py:126-168 | a committed window loads if and only if asked for with its inputs and length |
| `SegmentCache.SaveIsAtomic` | scripts/studio_vdn_segment_cache.py:97-123 | after every operation of a save, faulty or not, other parts load as before and this part loads nothing or exactly the payload |
| `SegmentCache.DiscardIsSafe` | scripts/studio_vdn_segment_cache.py:171-176 | at every operation of a discard the part does not load and the others load as before |
| `SegmentCache.LoadedWasSaved` | scripts/studio_vdn_segment_cache.py:81-176 | after any sequence of saves and discards, each stopped anywhere, what loads is the payload of one completed save with equal part, inputs and length |
| `SegmentCache.SaveBytes` | scripts/studio_vdn_segment_cache.py:97-123 | no directory of a save exceeds the old one by more than the three new files |
| `SegmentCache.SaveKeepsBudget` | scripts/studio_vdn_segment_cache.py:87-96 | a save that goes ahead stays within 12 GiB at every moment, but for what its state file is over 64 MiB |
| `SegmentCache.SaveKeepsReserve` | scripts/studio_vdn_segment_cache.py:87-96 | and leaves 1 GiB of the reported space free, but for its state file, which is not counted |
| `SegmentCache.BudgetHolds` | scripts/studio_vdn_segment_cache.py:81-123 | no sequence of saves and discards, each stopped anywhere, exceeds 12 GiB by more than the largest state file is over 64 MiB |
| `SegmentCache.BudgetIsPlain` | scripts/studio_vdn_segment_cache.py:81-123 | with headers of at most 60 MiB none exceeds 12 GiB, since two validated tails take under 3.5 MB |
| `SegmentCache.Store.Used` | scripts/studio_vdn_segment_cache.py:87-92 | the bytes of all files, temporary ones included |
| `SegmentCache.Store.SaveSegment` | scripts/studio_vdn_segment_cache.py:63-123 | when it raises, when it gives up untouched, and otherwise the exact directories it passes through |
| `SegmentCache.Store.WriteFiles` | scripts/studio_vdn_segment_cache.py:97-123 | marker away, frames, PCM, marker, and the directories of each, refused state files included |
| `SegmentCache.Store.WriteState` | scripts/studio_vdn_segment_cache.py:102-117 | the marker is written last, with the hashes of what is on disk |
| `SegmentCache.Store.DiscardSegment` | scripts/studio_vdn_segment_cache.py:171-176 | the marker goes first |
| `Render.PayloadNeverRaises` | scripts/studio_vdn_temporal.py:412-438 | no check fires for a window on the clocks, single- or two-pass, and its tails and PCM are on the clocks |
| `Render.SampledIsConsistent` | scripts/studio_vdn_temporal.py:386-446 | a sampled window never raises, is storable and leaves consistent cursors, frames, chunks and tails |
| `Render.RecoveredIsSampled` | scripts/studio_vdn_temporal.py:257-287 | replaying the cached window gives exactly the memory of the sampled one: the seam is repaired once |
| `Render.SmoothedCacheDiffersIff` | scripts/studio_vdn_temporal.py:420-428 | caching the repaired PCM instead would change the soundtrack if and only if there is a jump at the seam |
| `Render.AppendLength` | scripts/studio_vdn_temporal.py:424-430 | appending a window adds exactly its samples, seam included |
| `Render.UninterruptedConsistent` | scripts/studio_vdn_temporal.py:234-457 | the uninterrupted run never raises |
| `Render.FilmHasExactDuration` | scripts/studio_vdn_temporal.py:457-460 | the final check never fires: planned frames, and exactly their rounded samples |
| `Render.FilmCanBeContinued` | scripts/studio_vdn_temporal.py:496-499 | the tails of a film pass validation and are a lawful source of the next one |
| `Render.SameLowTail` | scripts/studio_vdn_temporal.py:434-438 | where previews do not depend on the settings, two-pass runs hold the same low tail at every part |
| `Film.FilmIsItsWindows` | scripts/studio_vdn_temporal.py:407-411 | every frame of the film is the frame of its window at the same absolute position, so each overlap is dropped once and nothing is lost or repeated |
| `Film.SoundtrackIsItsWindows` | scripts/studio_vdn_temporal.py:424-430 | the soundtrack to the sample: the 160 samples on each side of a cut are the seam repair of the two decoded pieces, every other sample is decoded |
| `Film.CutKeepsOneShare` | scripts/studio_vdn_temporal.py:73-81 | every cut of the film keeps exactly 1/161 of the jump between its decoded pieces |
| `Film.PieceIsDecoded` | scripts/studio_vdn_temporal.py:412-425 | a window's PCM is its decoded audio behind the shared ticks, the last sample repeated at most at the end |
| `Film.TailsAreItsWindows` | scripts/studio_vdn_temporal.py:432-438 | the tails carried to the next window end the latents of the window just sampled, video and audio; the low ones those of its preview in two passes, and otherwise the shrunk video and the same audio |
| `Recovery.SameInputs` | scripts/studio_vdn_temporal.py:241-251 | equal cache inputs mean equal tails and cursors |
| `Recovery.MarkerIsHonest` | scripts/studio_vdn_temporal.py:440-446 | what a window caches serves every run that may ask for it |
| `Recovery.HitIsValid` | scripts/studio_vdn_temporal.py:245-287 | a cache hit leads where sampling would have led |
| `StepIdentity.StageStreamInjective` | scripts/studio_vdn_sampler.py:178-195 | for one stage and model the digested stream determines request, tail digest and settings, but for the split of the versions |
| `StepIdentity.SettingsTextIff` | scripts/studio_vdn_sampler.py:185-195 | settings have the same text if and only if tier, knobs and joined versions agree |
| `StepIdentity.SameSettingsIff` | scripts/studio_vdn_sampler.py:194-195 | then they are the same if and only if their first versions are equally long |
| `StepIdentity.VersionsCanAlias` | scripts/studio_vdn_sampler.py:194-195 | otherwise not: moving the boundary between the versions of any settings gives other settings with the same stream |
| `Recovery.IdentityBindsPlan` | scripts/studio_vdn_sampler.py:178-201 | equal checkpoint identities of reachable runs mean the same stage of the same sampler, where settings do not alias |
| `Recovery.CommitHonest` | scripts/studio_vdn_sampler.py:255-256 | every directory of a commit is truthful for everyone who may read it |
| `Recovery.SaveHonest` | scripts/studio_vdn_segment_cache.py:97-123 | every directory of a cache save is honest |
| `Recovery.PreviewWriteHonest` | scripts/studio_vdn_temporal_store.py:172-178 | every directory of a preview save offers only previews their readers might have sampled |
| `Recovery.NewPreviewHonest` | scripts/studio_vdn_temporal.py:326-341 | a preview saved over slots that hold no step of another one, for any run that could accept it, leaves them honest |
| `Recovery.SeekKeepsInv` | scripts/studio_vdn_temporal.py:303-325 | a reused preview is one this window might have sampled, under whatever settings; any other is removed |
| `Recovery.ResumeTruthful` | scripts/studio_vdn_sampler.py:223-241 | resuming lands on the trajectory at the best step |
| `Recovery.StepKeepsInv` | scripts/studio_vdn_temporal.py:234-457 | every safe event, crash and decay included, keeps disks honest and the process on an uninterrupted run; only a crash ends a process |
| `Recovery.Progress` | scripts/studio_vdn_temporal.py:234-457 | a live process always has a next step that is not a crash and takes it closer to the end |
| `Recovery.Completes` | scripts/studio_vdn_temporal.py:234-460 | a live process that does not crash finishes, or a refinement comes to resume from steps of another preview |
| `Recovery.EveryHistoryCanFinish` | scripts/studio_vdn_temporal.py:205-503 | in a single pass, and where previews do not depend on the settings, every history can be finished from wherever it stands, with an uninterrupted film |
| `Recovery.HistoryInv` | scripts/studio_vdn_temporal.py:234-457 | the invariant holds in every world of every safe history |
| `Recovery.SafeUnlessLoose` | scripts/studio_vdn_temporal.py:374-383 | every history is safe in a single pass, and where previews do not depend on the settings |
| `Recovery.FreeIsSafe` | scripts/studio_vdn_sampler.py:223-226 | a history is safe if the refinements that resume find no step they would accept |
| `Recovery.OwnIsSafe` | scripts/studio_vdn_temporal.py:326-341 | a history is safe if no preview is saved while its part's slots hold a step of another one that some run could take for its own |
| `Recovery.KeepFreeIsSafe` | scripts/studio_vdn_temporal.py:326-341 | and so if they hold no step that some run would accept |
| `Recovery.EveryHistoryIsUninterrupted` | scripts/studio_vdn_temporal.py:205-503 | every finished history in which no refinement resumes from steps of another preview delivers the film of a run that never crashed, with some settings for each pass of each window |
| `Recovery.AnyTwoHistoriesAgree` | scripts/studio_vdn_temporal.py:205-503 | with samplers that do not depend on the settings any two finished histories deliver the same film |
| `Example.LawfulEngineExists` | scripts/studio_vdn_temporal.py:300-373 | the assumptions of the main theorem can be met: a concrete two-pass engine with fixed previews is lawful and its empty disks are honest |
| `Recovery.RefinementIsNotBoundToPreview` | scripts/studio_vdn_sampler.py:196-201 | refinement slots of one preview are accepted for another; the stage then ends with the first one's window if they hold a step, and with the other's if they hold none |
| `Mixture.SomeHistoryIsMixed` | scripts/studio_vdn_sampler.py:196-201 | a lawful engine and a finished history from empty disks, each process under its own settings, whose film no uninterrupted run gives, so it is not safe |
| `Recovery.InputsAliasIff` | scripts/studio_vdn_temporal.py:241-251 | when two jobs ask for the same cached window: model, request, refine steps, part, tails and length, not the number of passes |
| `Recovery.PassesShareTheCache` | scripts/studio_vdn_temporal.py:242-251 | the first window of a job loads in a job with the other number of passes |
| `Session.AppendWindow` | scripts/studio_vdn_temporal.py:424-430 | the seam changes the last chunk in place and no other |
| `Session.RecoverWindow` | scripts/studio_vdn_temporal.py:257-287 | the cached branch computes the recovered memory and fails exactly when it does |
| `Session.SampleWindow` | scripts/studio_vdn_temporal.py:386-446 | the sampled branch computes the sampled memory and payload; the cached PCM is not the repaired one |
| `Session.RenderWindow` | scripts/studio_vdn_temporal.py:234-456 | one pass of the loop, hit or miss, with any disk fault |
| `Session.RenderTemporalVideo` | scripts/studio_vdn_temporal.py:205-460 | a whole session delivers the film of an uninterrupted run through honest directories only |
| `ContextStore.ReloadIsExact` | scripts/studio_vdn_temporal_store.py:109-157 | at every moment of a save the next film finds the old snapshot or exactly the new tails, the latter only under their own video, model, job and identity |
| `ContextStore.LoadIsInverse` | scripts/studio_vdn_temporal_store.py:135-157 | a snapshot loads if and only if it is exactly what saving the loaded tails for that owner would write |
| `Continuations.ChainIsExact` | scripts/studio_vdn_temporal.py:470-499 | from any good film on, any number of continuations within 10000 frames: lawful sources, exact reloads, joins that never raise, frames less one overlap per window, samples to the frame |
| `Continuations.EveryChainIsExact` | scripts/studio_vdn_temporal.py:205-503 | the same from nothing on |
| `Continuations.JoinIsExact` | scripts/studio_vdn_chain.py:240-242 | joining a continuation never trips the padding check and comes out at the rounded samples of all frames |
| `Continuations.TakesAreInPlace` | scripts/studio_vdn_chain.py:284-308 | every take of a chain is in place in the film of all: its frames behind those before it, its samples behind their rounded samples, but for the 320 on each side of a cut; nothing published before changes otherwise |
| `Continuations.ExtendedCut` | scripts/studio_vdn_chain.py:154-163 | at each cut of a chain the 320 samples on either side fade evenly to the midpoint of the old and the new soundtrack |
| `Continuations.TakesHandOverTails` | scripts/studio_vdn_temporal.py:496-499 | every take continues exactly the tails that the render before it ended with |
| `ContextStore.Store.SaveContext` | scripts/studio_vdn_temporal_store.py:109-132 | when it raises, and the directories it passes through |
| `Chain.IterAudio` | scripts/studio_vdn_chain.py:44-86 | for every chunking, exactly the expected samples: trimmed, or the last one repeated; and exactly when it raises |
| `Chain.Fitted` | scripts/studio_vdn_chain.py:79-86 | the expected length: a prefix, or the samples and the last one repeated |
| `Chain.Trimmed` | scripts/studio_vdn_chain.py:53-78 | the emitted chunks spell the prefix, none empty |
| `Chain.SmoothingIsLocal` | scripts/studio_vdn_chain.py:95-136 | smoothing the last and first 320 samples is smoothing the whole soundtracks |
| `Chain.StreamParent` | scripts/studio_vdn_chain.py:102-109 | nothing lost, at most 320 samples withheld |
| `Chain.StreamOpening` | scripts/studio_vdn_chain.py:110-128 | the first 320 samples of the child and what is left of their last block |
| `Chain.StreamJoinedAudio` | scripts/studio_vdn_chain.py:95-136 | for every chunking of both decoders the stream is the two smoothed soundtracks, and exactly when it raises |
| `Chain.FixedAudioBlocks` | scripts/studio_vdn_chain.py:139-151 | the same samples in blocks of 1024, a shorter last one allowed |
| `Chain.JoinAudio` | scripts/studio_vdn_chain.py:232-318 | the joined soundtrack has exactly the rounded samples of all frames, the final check never fires, and each block is stamped with the samples before it |
| `Tiling.TilePolicy` | scripts/studio_vdn_lowmem.py:11-24 | raises exactly on invalid sizes; otherwise both tiles are at least 1 and within their limits and overrides |
| `Tiling.ScratchShare` | scripts/studio_vdn_lowmem.py:17 | 15 % of the free memory, rounded down, between 4 and 256 MiB |
| `Tiling.TilesFillScratch` | scripts/studio_vdn_lowmem.py:17-24 | tiles fit the scratch memory unless they are single heads or queries, and no larger tile within the limits and overrides would fit |
| `Tiling.ProjectIsSlice` | scripts/studio_vdn_lowmem.py:103-113 | sliced weights and sliced outputs give the same rows |
| `Tiling.ProjectionsAgree` | scripts/studio_vdn_lowmem.py:51-57 | fused, separate, sliced and whole projections all agree |
| `Tiling.RowReads` | scripts/studio_vdn_lowmem.py:103-113 | which layer and which of its rows give queries, keys and values, separate or fused |
| `Tiling.HeadsPartitionRow` | scripts/studio_vdn_lowmem.py:125-138 | the heads cut a projection into its parts, in order |
| `Tiling.KernelSees` | scripts/studio_vdn_lowmem.py:128-144 | what the kernel is given for a head of a token: its own query and every key, normed and rotated by their own places, and every plain value |
| `Tiling.OutputSees` | scripts/studio_vdn_lowmem.py:145-155 | the output layers are given the heads of a token side by side, in order |
| `Tiling.GroupHeadIsHead` | scripts/studio_vdn_lowmem.py:125-138 | a head of a head group is that head of the whole projection |
| `Tiling.KvForGroup` | scripts/studio_vdn_lowmem.py:115-123 | keys and values of all tokens, whole or tile by tile |
| `Tiling.AttendTile` | scripts/studio_vdn_lowmem.py:135-145 | a query tile with its slice of the rotary table gives the cells of untiled attention |
| `Tiling.NativeH3Attention` | scripts/studio_vdn_lowmem.py:98-156 | equals untiled attention for every tile size, writes every (token, head) cell exactly once, and exactly when it raises |
| `Tiling.ProjectOut` | scripts/studio_vdn_lowmem.py:148-156 | the tiled output layers |
| `Tiling.TiledForward` | scripts/studio_vdn_lowmem.py:192-200 | the buffer holds the layer's answers tile by tile |
| `Tiling.TilingIsInvisibleIff` | scripts/studio_vdn_lowmem.py:192-200 | tiles of every size give what the whole layer gives, for every input, if and only if it treats tokens on their own |
| `Upscale.ViewIsAligned` | scripts/studio_vdn_learned_upscaler.py:166-176 | slices are in bounds and every frame of a view sits at its own place in the segment |
| `Upscale.ContextIsOneSided` | scripts/studio_vdn_learned_upscaler.py:168-176 | a segment holds up to two overlaps before its view and nothing after it |
| `Upscale.SegmentIsStretch` | scripts/studio_vdn_learned_upscaler.py:162-172 | a segment is a stretch of the clip, its end frames repeated beyond |
| `Upscale.TotalWeight` | scripts/studio_vdn_learned_upscaler.py:177-189 | every frame's total weight is at least 1, so the clamp is inert |
| `Upscale.CoversIff` | scripts/studio_vdn_learned_upscaler.py:167-170 | a chunk contributes to its own frames and those within an overlap of them |
| `Upscale.OwnChunk` | scripts/studio_vdn_learned_upscaler.py:167-168 | every frame belongs to exactly one chunk of the loop |
| `Upscale.WeightIsEven` | scripts/studio_vdn_learned_upscaler.py:177-185 | across n frames of overlap the weight rises evenly towards the chunk: the k-th has k of n+1 shares |
| `Upscale.SeamIsCrossedEvenly` | scripts/studio_vdn_learned_upscaler.py:177-189 | k frames into an overlap of n with one neighbour, a frame is n+1 shares of its own chunk and k of the neighbour |
| `Upscale.BlendIsBetween` | scripts/studio_vdn_learned_upscaler.py:186-189 | a blended frame lies between the segments that cover it |
| `Upscale.AgreementIsKept` | scripts/studio_vdn_learned_upscaler.py:186-189 | where the segments agree the blend is their value |
| `Upscale.BlendIsWhole` | scripts/studio_vdn_learned_upscaler.py:157-189 | for a network of radius r the blend is the network on the whole clip wherever every covering chunk surrounds the frame by r frames or has the clip for its segment |
| `Upscale.SeamlessIffClear` | scripts/studio_vdn_learned_upscaler.py:157-189 | over all networks of any radius r and all clips, chunking never shows at a frame if and only if that holds |
| `Upscale.SeamlessOnlyForRadiusZero` | scripts/studio_vdn_learned_upscaler.py:157-189 | so a chunked clip is seamless throughout for no radius but 0 |
| `Upscale.AlwaysSeamlessIff` | scripts/studio_vdn_learned_upscaler.py:157-189 | over all networks whatever, chunking never shows at a frame if and only if every covering chunk has the whole clip for its segment |
| `Upscale.ChunkWeights` | scripts/studio_vdn_learned_upscaler.py:177-185 | the ramps written into the weight buffer |
| `Upscale.Forward` | scripts/studio_vdn_learned_upscaler.py:153-189 | a clip of the target size is returned, a short one goes through whole, and otherwise every coordinate of every frame is the normalized blend of the segments that cover it |
| `StreamDecode.ClipsRoundUp` | scripts/studio_vdn_stream_encode.py:16-22 | the clip count is the least whose chunks hold all tokens and the dropped ones |
| `StreamDecode.InsideIffSmallDrop` | scripts/studio_vdn_stream_encode.py:32-40 | for latents of every length all clips start inside them if and only if the drop is at most a chunk |
| `StreamDecode.LastClipReachesEnd` | scripts/studio_vdn_stream_encode.py:32-40 | no token is left undecoded when overlap and drop make up a chunk |
| `StreamDecode.PieceIsDecoded` | scripts/studio_vdn_stream_encode.py:32-52 | clip i adds the decoded frames of its first window behind the pre-padding, those of the second window of the clip before it blended in from the left |
| `StreamDecode.TimelineIsPieces` | scripts/studio_vdn_stream_encode.py:42-62 | the timeline is the pieces one behind the other, then the second window of the last clip |
| `StreamDecode.TimelineIsDecoded` | scripts/studio_vdn_stream_encode.py:32-62 | for a decoder that works token by token and a blend that keeps frames given twice, the timeline is the decoded latents in order, extended by the last token, less the pre-padding of each window |
| `StreamDecode.TimelineHoldsAll` | scripts/studio_vdn_stream_encode.py:32-62 | so without pre-padding it starts with all decoded latents whenever overlap and drop make up a chunk or nothing is dropped |
| `StreamDecode.IterVideoChunks` | scripts/studio_vdn_stream_encode.py:9-65 | yields exactly the prefix of the batch timeline, never more than expected, and ends normally if and only if the timeline is long enough |
| `ShardHooks.CallLeavesNothing` | scripts/studio_vdn_native_shards.py:214-274 | no call leaves a module loaded that was not, and only modules being called are ever loaded |
| `ShardHooks.OutermostCallEvictsAll` | scripts/studio_vdn_native_shards.py:214-274 | after the outermost call everything is back on meta |
| `ShardHooks.LoadedIsPathIff` | scripts/studio_vdn_native_shards.py:217-219 | every forward finds exactly the modules being called loaded, if and only if no forward swallows a re-entrance of a module still being called |
| `ShardHooks.PropagatingCallsAreExact` | scripts/studio_vdn_native_shards.py:214-274 | without handlers the condition holds, however calls nest and fail |
| `ShardHooks.SwallowedReentranceUnloads` | scripts/studio_vdn_native_shards.py:268-274 | a module that catches its own refusal goes on without weights |
| `ShardHooks.NativeOriginalShardHooks.Before` | scripts/studio_vdn_native_shards.py:214-251 | refuses a live module, and a failing hydration leaves nothing behind |
| `ShardHooks.NativeOriginalShardHooks.Evict` | scripts/studio_vdn_native_shards.py:253-266 | exactly the named weights go back to meta |
| `ShardHooks.NativeOriginalShardHooks.After` | scripts/studio_vdn_native_shards.py:268-274 | the module is no longer loaded |
| `ShardHooks.NativeOriginalShardHooks.Forward` | scripts/studio_vdn_native_shards.py:208-211 | a call under the hooks follows the specification, and the materialized weights are exactly those of `loaded` |
| `ShardHooks.Register` | scripts/studio_vdn_native_shards.py:180-202 | construction succeeds if and only if the index is not empty, names every parameter and nothing but parameters and buffers; what is registered is then the index |
| `ShardHooks.KeysDiffer` | scripts/studio_vdn_native_shards.py:185-190 | keys of weights in different modules or under different names differ, as names have no dots |
| `ShardHooks.TargetIsNeverAmbiguous` | scripts/studio_vdn_native_shards.py:316-331 | the longest suffix wins and there is never a tie |
| `ShardHooks.WrappersAreStripped` | scripts/studio_vdn_native_shards.py:316-319 | a module named inside any of the three wrappers, nested in their order, is the target unless a longer form is a name itself |
| `MemoryPlan.PlanIsExact` | scripts/studio-vdn-h3-worker.py:302-357 | the plan is exactly the tiers the request admits and the machine meets, once each, fastest first; planning fails exactly when there is none or readings are invalid |
| `MemoryPlan.PlanIsMonotone` | scripts/studio-vdn-h3-worker.py:302-357 | more resources never remove or reorder a tier |
| `MemoryPlan.CapabilitiesAgree` | scripts/studio-vdn-h3-worker.py:293-299 | a capability given as a pair or as a number counts alike: 8.9 and later |
| `MemoryPlan.PlannedDiskTierIsAccepted` | scripts/studio_vdn_disk_loader.py:81-123 | a planned disk tier is accepted by the budget and the dispatch check on the same readings, nothing is lost, and 4 GiB stay free on each device |
| `MemoryPlan.BudgetShares` | scripts/studio_vdn_disk_loader.py:98-99 | 18 % of the graphics memory up to 2 GiB and 22 % of the host memory up to 4 GiB; the lower limits never act |
| `MemoryPlan.AcceptedBudgetIsPlanned` | scripts/studio_vdn_disk_loader.py:90-95 | the budget accepts the readings if and only if a disk tier is planned |
| `MemoryPlan.FlagsAreTheTier` | scripts/studio-vdn-h3-worker.py:378-382 | the flags parsed from a tier's name say what the tier is |
| `MemoryPlan.FlagsIdentifyTiers` | scripts/studio-vdn-h3-worker.py:378-382 | no two tiers set the same flags |
| `MemoryPlan.PlannedPrecision` | scripts/studio-vdn-h3-worker.py:447-449 | a planned tier runs in the requested precision |
| `MemoryPlan.EmergencyIsSmaller` | scripts/studio-vdn-h3-worker.py:438-445 | emergency tiles are bounded, never larger than requested, at the bound where none or more is requested, and stable |
| `MemoryPlan.RetryIff` | scripts/studio-vdn-h3-worker.py:438-445 | a tier is tried again if and only if tiling is on and its tiles are not the smallest already, and then with tiles that are |
| `MemoryPlan.ScheduleAt` | scripts/studio-vdn-h3-worker.py:434-446 | tier after tier, each with all its attempts before the next |
| `MemoryPlan.AtMostTwoTriesPerTier` | scripts/studio-vdn-h3-worker.py:434-446 | every planned tier gets exactly its attempts, one or two, and no other tier any |
| `MemoryPlan.RunLadder` | scripts/studio-vdn-h3-worker.py:434-481 | the tries made are a prefix of the schedule, each but the last ran out of CUDA memory, and how it ends says how the last one did |
| `ProcessTree.IncludedProcesses` | scripts/bench-jcode-parity.py:55-64 | terminates on any table with the least set that holds the roots and is closed under parents and led groups |
| `ProcessTree.LiveProcesses` | scripts/paired-jcode-littlemonkey-live.py:131-136 | terminates on any table and walking order with the least set closed under parents |
| `ProcessTree.LoopsAgree` | scripts/bench-jcode-parity.py:55-64 | both loops agree when no root leads a group |
| `ProcessTree.GroupsAreExtraRoots` | scripts/bench-jcode-parity.py:52-61 | including a led group is measuring its members as further roots |
| `ProcessTree.IncludedAreDescendants` | scripts/bench-jcode-parity.py:52-64 | a process is counted if and only if a line of descent leads to it from a root or from a member of a group that a root leads |
| `Sse.SplitChunks` | sdk/typescript/client.ts:159-161 | carrying the unterminated rest over to the next chunk splits as the whole text does |
| `Sse.ChatStream` | sdk/typescript/client.ts:153-169 | for every chunking the reader yields, stops and throws as if it had read the text whole |
| `Sse.UnterminatedLineIsIgnored` | sdk/typescript/client.ts:160-162 | a last line without a line break is never read, even if it is the only one |
| `Sse.SseResponse` | src-tauri/examples/discord_installed_service_e2e.rs:359-369 | the loop prints the frames and the end marker |
| `Sse.PrintedPayload` | sdk/typescript/client.ts:163-165 | a printed line carries its trimmed text |
| `Sse.FieldPayload` | sdk/typescript/client.ts:163-165 | white space before the field name, or none behind the colon, makes no difference |
| `Sse.RoundTrip` | src-tauri/examples/discord_installed_service_e2e.rs:359-369 | reading the print yields exactly the frames and stops, if and only if every frame is on one line, trimmed and not the end marker |
| `Sse.ParsedRoundTrip` | sdk/typescript/client.ts:163-167 | with any parser the reader yields the printed frames up to the first that does not parse, where it throws, or to the end marker |

## Left out

- EveryHistoryIsUninterrupted: excludes histories in which a refinement resumes from steps of another preview, where the code does deliver mixed films; rendering from someone else's previews (`--refine-from`) is not modelled.
- `NativeTemporalPrefix.finish` overwrites the opening rows of a sampled latent; the tail that is captured lies behind them, so it is part of the decoding function here.
- Disk errors other than a full disk during a cache save, which end the process like a crash.
- Path, symlink, archive, hash-pinning and finiteness checks.
- H.264 packet copying, MP4 muxing and verification, and encoders; the frames of a join are those of both films, as decoded.
- Floating-point rounding, tensor dtypes and devices; the weight-norm cache that `_evict` also releases; FP8 quantization beyond its failing.
- The alternative attention paths for masks and batches, which call the original processor.
- Signals to child processes, and how an exit is recognized as a CUDA out-of-memory error.
- `decode_policy`, `weight_stream_policy`, metrics and the audio worklet: easy members.
- Section 9.2.6 of the WHATWG HTML Standard joins consecutive `data:` lines into one event and accepts carriage returns as line ends; the reader does neither, and the model follows the reader.
- The HTTP status line and headers around the printed events.
- The user interface, the build scripts, the remaining end-to-end harnesses, the other workers and the Python SDK.
