# Verified model of Scroom's hard core

Scroom shows very large bitmaps.  It cuts them into tiles, builds a pyramid of
layers that are 8 times smaller each on a thread pool, and keeps tile data in a
compressing in-memory store.  This Dafny project models those parts and proves
what they are for.  `dafny verify dfyconfig.toml` checks everything.

| file | models |
|---|---|
| `Wrappers.dfy`, `Counting.dfy` | results of operations that can fail, and sums over sequences |
| `JobQueue.dfy`, `ThreadPool.dfy` | the worker pool: schedule, claim, pop, run, wait, notify, destroy, delete a queue; any number of workers, every interleaving |
| `FetchChain.dfy` | `QueueJumper` and the chain of `DataFetcher` runs that reads a layer row by row |
| `Pages.dfy`, `Blobs.dfy` | page allocation and the blob state machine, for any number of blobs on one page provider |
| `Arith.dfy`, `Layers.dfy`, `Wiring.dfy` | layer sizes, tile grids, and which tile is reduced into which |
| `LoadProtocol.dfy`, `Pyramid.dfy`, `PyramidOps.dfy` | loading a bitmap: fetch and reduce jobs that store pixel by pixel in any order, compared with a flat pyramid |
| `Bits.dfy`, `SampleIterator.dfy` | the bit operators, and samples packed into bytes or 16 bit elements |
| `Reduce.dfy`, `Clipped.dfy`, `Histogram.dfy`, `Colormapped.dfy`, `Bridge.dfy` | the `reduce` operations on tile buffers, and their link to the pyramid |
| `Rectangles.dfy`, `Pipette.dfy`, `FillTiles.dfy` | scanlines scattered over tiles, and the pipette that sums them again |
| `Bookkeeping.dfy` | the map whose entries live as long as their token |
| `Ruler.dfy` | the search for the tick interval of a ruler |

Concurrency is a transition system: each section under a mutex is one step, the
steps of all threads interleave freely, and results are stated for every state
of every run.  "The last handle is dropped" and "its deleter runs" are separate
steps, and so are "a token dies" and "its destructor removes the entry".
Fields prefixed in the comments as history (`all`, `popped`, `content`, ...) are
never read by a step.  Code that works in place is a class or a method on
arrays whose `ensures` gives the new contents.  TILESIZE is a parameter `T`
that is divisible by 8.  Shifts, masks and complements are the functions of
`Bits.dfy`, which are defined bit by bit on unsigned numbers of any width.

## Where the code does not do what one would expect

- `QueueJumper::setWork` documents that the function "will get executed" when
  it returns true (libs/threadpool/inc/scroom/threadpool.hh:568).  Popping the
  jumper, taking its QueueLock and calling it are three steps, and the lock
  decides: `FetchChain.AcceptedWorkRuns` proves that accepted work runs if and
  only if the queue was not deleted when the jumper's QueueLock was taken.
  `FetchChain.AcceptedButDropped` is a run in which it never does, and
  `FetchChain.AcceptedAfterDeletionRuns` one in which work runs that was
  accepted after the deletion.
- A thread pool drops queued jobs in three cases, and a run shows each:
  without `completeAllJobsBeforeDestruction` (`ThreadPool.AbandonsWithoutFlag`),
  when a job is scheduled after the last worker has left
  (`ThreadPool.AbandonsLateJob`), and when there is no worker
  (`ThreadPool.AbandonsWithoutWorkers`).  In all other cases
  `ThreadPool.DrainsBeforeLeaving` proves that none is lost.
- The clipped 1bpp reduce addresses its target by whole bytes.  Its addresses of
  the 64 places are right exactly for widths that are multiples of 64
  (`Clipped.ClippedBaseIff`), which holds for the TILESIZE of 4096;
  `Clipped.ClipTile` asks for it.
- The reduce for colour-indexed tiles addresses its target by 16 bit elements.
  With d pixels per byte its addresses are right exactly for widths of which an
  eighth is a multiple of d (`Colormapped.PairBaseIff`); every multiple of 64
  is such a width, and with 8 bits per sample every multiple of 8.
- The last byte of a scanline is copied into its tile as a whole, so with less
  than 8 bits per pixel its padding bits become pixels to the right of the
  image.  `Pyramid.Padded` gives 0 there, which is right when the padding bits
  are zero.  Otherwise they are pixels of an image that is at most 7 pixels
  wider: `Pyramid.PaddingBits` proves that this image has the same tiles and the
  same layers above the bottom one, so that all results on loads hold for it.
- `SampleIterator::set` does not mask its argument.  `SampleIterators.SetAny`
  gives its effect for every value, and `SampleIterators.SafeIff` says exactly
  which values leave all other samples alone.
- `RulerCalculations::calculateInterval` documents a result of -1
  (gui/ruler/inc/ruler.hh:192) that its own requirements exclude.

## Model

| member | source | states |
|---|---|---|
| JobQueue.JobMap.Push | libs/threadpool/src/threadpoolimpl.cc:353-359 | the map of FIFOs represents the queue with the job appended |
| JobQueue.JobMap.Pop | libs/threadpool/src/threadpoolimpl.cc:314-329 | empty FIFOs are skipped; the job returned is the oldest of the smallest priority number, and the map represents the queue without it; nothing only if nothing is queued |
| JobQueue.FrontIsBest | libs/threadpool/src/threadpoolimpl.cc:316-324 | the front of the first non-empty FIFO is the best job of the whole queue |
| JobQueue.BestIndex | libs/threadpool/src/threadpoolimpl.cc:321-324 | no job has a smaller priority number, and none of the same priority is older |
| ThreadPool.PrivateData.Schedule | libs/threadpool/src/threadpoolimpl.cc:353-359 | queue and jobcount grow together |
| ThreadPool.PrivateData.WorkSection | libs/threadpool/src/threadpoolimpl.cc:274-307 | claim, wait, or leave, as `alive`, `jobcount` and the completion flag say |
| ThreadPool.PrivateData.PopSection | libs/threadpool/src/threadpoolimpl.cc:309-330 | the best queued job is taken, or the defect is reported |
| ThreadPool.PrivateData.Destroy | libs/threadpool/src/threadpoolimpl.cc:258-272 | only `alive` changes |
| ThreadPool.QueueImpl.JobStarted | libs/threadpool/src/queue.cc:30-36 | one more lock holder; tells whether the queue still exists |
| ThreadPool.QueueImpl.JobFinished | libs/threadpool/src/queue.cc:38-43 | one lock holder less, and waiting deletions are woken |
| ThreadPool.QueueImpl.DeletingQueueSection | libs/threadpool/src/queue.cc:20-28 | the queue is marked deleted; done exactly when nobody holds the lock |
| ThreadPool.PopNeverFails | libs/threadpool/src/threadpoolimpl.cc:274-330 | in every state of every run a worker that has claimed a job finds one: "JobQueue empty" is unreachable |
| ThreadPool.InvStep | libs/threadpool/src/threadpoolimpl.cc:258-359 | every step keeps the counts, the accounting of jobs, FIFO order, the wake-up and the queue-lock invariants |
| ThreadPool.InvAlways | libs/threadpool/src/threadpoolimpl.cc:258-359 | they hold in every state of every run |
| ThreadPool.AtMostOnce | libs/threadpool/src/threadpoolimpl.cc:309-341 | a job is popped at most once, and run or dropped at most once and never both; only jobs of deleted queues are dropped |
| ThreadPool.PopTakesBest | libs/threadpool/src/threadpoolimpl.cc:321-324 | in every run a pop takes the oldest job of the smallest priority number present |
| ThreadPool.UrgentJobIsNext | libs/threadpool/src/threadpoolimpl.cc:353-359 | a job scheduled with a smaller priority number than all that wait is the next one popped |
| ThreadPool.PoppedInOrder | libs/threadpool/src/threadpoolimpl.cc:353-359 | jobs of one priority are popped in the order in which they were scheduled |
| ThreadPool.NoLostWakeup | libs/threadpool/src/threadpoolimpl.cc:276-290 | while alive, sleeping workers imply that each unclaimed job has its own awake worker; after destruction nobody sleeps |
| ThreadPool.AwakeCanMove | libs/threadpool/src/threadpoolimpl.cc:274-341 | a worker that neither sleeps nor has left always has a step |
| ThreadPool.DrainsBeforeLeaving | libs/threadpool/src/threadpoolimpl.cc:292-306 | with the completion flag, when all workers have left every job has been popped, and executed unless its queue was deleted |
| ThreadPool.AbandonsWithoutFlag | libs/threadpool/src/threadpoolimpl.cc:292-306 | without it there is a run in which a job is never popped |
| ThreadPool.NothingClaimedWithoutFlag | libs/threadpool/src/threadpoolimpl.cc:292-306 | without it, in every run no worker claims a job once the pool is being destroyed |
| ThreadPool.AbandonsLateJob | libs/threadpool/src/threadpoolimpl.cc:353-359 | with it there is one for a job scheduled after the workers have left |
| ThreadPool.AbandonsWithoutWorkers | libs/threadpool/src/threadpoolimpl.cc:292-306 | with it there is one for a pool without workers |
| ThreadPool.ShutdownProgress | libs/threadpool/src/threadpoolimpl.cc:258-307 | after destruction every worker step lowers a measure, and until all have left some worker can move |
| ThreadPool.DeletionStopsJobs | libs/threadpool/src/threadpoolimpl.cc:332-340 | from the moment a queue is marked deleted, while `deletingQueue` may still block: a job of it that is not being executed then never is and never completes, and the number of workers executing its jobs never grows |
| ThreadPool.BegunJobCompletes | libs/threadpool/src/threadpoolimpl.cc:332-340 | a job that a worker has begun is executed by it until it counts as run, also when its queue is deleted meanwhile |
| ThreadPool.QueueDeletionSafety | libs/threadpool/src/queue.cc:20-63 | once `deletingQueue` has returned, no worker is at any later moment running a job of that queue, and none of them is ever completed |
| ThreadPool.StaysReturned | libs/threadpool/src/queue.cc:20-28 | a deletion that has returned stays so |
| ThreadPool.DeletionNotStuck | libs/threadpool/src/queue.cc:20-43 | a blocked deletion waits for a worker that holds the lock |
| FetchChain.QueueJumper.SetWork | libs/threadpool/src/threadpoolimpl.cc:422-437 | work is stored and accepted exactly while the jumper is in the queue |
| FetchChain.RunsLastWork | libs/threadpool/src/threadpoolimpl.cc:422-447 | after any calls of `setWork` the jumper runs the work passed last and without work ends at once; later calls are refused and change nothing |
| FetchChain.QueueJumper.End | libs/threadpool/src/threadpoolimpl.cc:446-447 | from then on no work is accepted |
| FetchChain.FillsPartition | libs/tiled-bitmap/src/layer.cc:224-226 | the calls of fillTiles for all rows partition the lines [0, height) |
| FetchChain.FetchedInOrder | libs/tiled-bitmap/src/layer.cc:210-247 | in every run rows are filled once each and in order, at most one fetcher has not passed the chain on, and the finish callback has fired exactly when all rows are filled and none such is left, never twice |
| FetchChain.SetWorkAnswer | libs/threadpool/src/threadpoolimpl.cc:422-437 | in every run `setWork` returns true exactly as long as the jumper has not been called |
| FetchChain.HandsOver | libs/tiled-bitmap/src/layer.cc:233-241 | in every run the jumper takes the next row, and the run leaves, exactly as long as the jumper has not been called; otherwise it stays as it was and the run is refused. The jumper is the one `setWork` leaves, and its answer decides |
| FetchChain.HandsOverNothingElse | libs/tiled-bitmap/src/layer.cc:233-246 | no other job changes; the fetcher of the last row passes nothing on and finishes |
| FetchChain.RefusedRowIsScheduled | libs/tiled-bitmap/src/layer.cc:237-240 | a refused row becomes a job of its own |
| FetchChain.AcceptedWorkRuns | libs/threadpool/src/threadpoolimpl.cc:332-341 | accepted work has been started or is started next if and only if the queue was not deleted when the jumper's QueueLock was taken; once started it cannot be started again |
| FetchChain.NotYetLocked | libs/threadpool/src/threadpoolimpl.cc:314-332 | before that moment nothing has been started, and the jumper can still be popped or locked |
| FetchChain.AcceptedButDropped | libs/threadpool/inc/scroom/threadpool.hh:563-571 | a run in which accepted work never runs because the queue was deleted |
| FetchChain.AcceptedAfterDeletionRuns | libs/threadpool/inc/scroom/threadpool.hh:563-571 | a run in which work accepted after the deletion runs |
| FetchChain.ChainProgresses | libs/tiled-bitmap/src/layer.cc:210-247 | every step except deletion lowers a measure, and until the chain is done or dropped some step is possible |
| FetchChain.NobodyStuck | libs/tiled-bitmap/src/layer.cc:210-247 | every popped job and every run that has not ended has a next step |
| Pages.PagesAreDisjoint | libs/memory-manager/src/swapbasedblockallocator.cc:59-67 | an offset exists exactly for existing pages; pages lie in their block and do not overlap |
| Pages.GetPages | libs/memory-manager/src/swapbasedblockallocator.cc:74-85 | one page for each number below the count, in order |
| Pages.PageProvider.GetFreePage | libs/memory-manager/src/memoryblobs.cc:42-59 | the front of the free list, after a new block if the list was empty |
| Pages.PageProvider.MarkPageFree | libs/memory-manager/src/memoryblobs.cc:63-67 | the page goes to the front of the free list |
| Pages.PageProvider.ReadPage | libs/memory-manager/src/swapbasedblockallocator.cc:59-67 | the bytes of the page, or the range error exactly for a page that does not exist |
| Pages.PageProvider.WritePage | libs/memory-manager/src/swapbasedblockallocator.cc:59-67 | the beginning of the page is overwritten |
| Pages.HandOutConserves | libs/memory-manager/src/memoryblobs.cc:42-59 | the page handed out was not in use; every existing page is free or in use, exactly once |
| Pages.ReturnConserves | libs/memory-manager/src/memoryblobs.cc:63-67 | returning a used page keeps that account |
| Pages.AllocatesOnlyWhenEmpty | libs/memory-manager/src/memoryblobs.cc:42-59 | a block is allocated only when no page is free, and then one, whose pages are handed out from number 0 on |
| Pages.FreedIsNext | libs/memory-manager/src/memoryblobs.cc:42-67 | the page freed last is handed out first, and handing it out undoes freeing it |
| Pages.WriteIsLocal | libs/memory-manager/src/swapbasedblockallocator.cc:59-67 | writing one page changes no byte of any other page |
| Blobs.StreamStored | libs/memory-manager/src/blob-compression.cc:46-60 | a stream of any length is stored in pages that were free, can be read back from them, and no page in use changes |
| Blobs.PagesNeeded | libs/memory-manager/src/blob-compression.cc:46-60 | a stream takes the number of pages it needs and no more, and at least one |
| Blobs.CompressBlob | libs/memory-manager/src/blob-compression.cc:30-68 | stores the stream page by page, as the specification function says |
| Blobs.StreamOf | libs/memory-manager/src/blob-compression.cc:85-100 | what inflate is given is the concatenation of the pages |
| Blobs.DropPages | libs/memory-manager/src/memoryblobs.cc:63-67 | replacing a page list returns its pages one by one |
| Blobs.InflatesBack | libs/memory-manager/src/blob-compression.cc:70-105 | decoding the stored pages gives the compressed bytes back, given a codec that round-trips |
| Blobs.BlobObject.LoadData | libs/memory-manager/src/memoryblobs.cc:81-115 | one case for each state; a new handle generation and reference |
| Blobs.BlobObject.UnloadData | libs/memory-manager/src/memoryblobs.cc:117-134 | last reference: schedule compression when dirty, free otherwise |
| Blobs.BlobObject.CompressData | libs/memory-manager/src/memoryblobs.cc:136-149 | only a COMPRESSING blob changes, and then as `Blobs.CompressJobCompresses` says |
| Blobs.CompressJobCompresses | libs/memory-manager/src/memoryblobs.cc:136-149 | in every run the compress job of a COMPRESSING blob leaves it CLEAN without a buffer, the old buffer freed, one job less, its pages beginning with the encoded content and its old pages free; no other blob changes |
| Blobs.LateJobDoesNothing | libs/memory-manager/src/memoryblobs.cc:136-149 | a compress job that finds the blob loaded again changes nothing |
| Blobs.LastHandleGone | libs/memory-manager/src/memoryblobs.cc:117-134 | when the deleter of the last handle runs, a dirty blob is sent to be compressed and keeps its buffer, any other one has it freed |
| Blobs.StateTable | libs/memory-manager/src/memoryblobs.cc:81-172 | in every run each event leads to the state, the handles and the due deleter that a table lists; only compressing gives a blob other pages |
| Blobs.BlobObject.GetData | libs/memory-manager/src/memoryblobs.cc:151-157 | load, then DIRTY |
| Blobs.BlobObject.GetConstData | libs/memory-manager/src/memoryblobs.cc:168-172 | load |
| Blobs.BlobObject.InitializeData | libs/memory-manager/src/memoryblobs.cc:159-166 | load, DIRTY, and every byte has the value |
| Blobs.InvAlways | libs/memory-manager/src/memoryblobs.cc:42-173 | every blob and the page accounts are in order in every state of every run |
| Blobs.NextLoadIsLastWritten | libs/memory-manager/src/memoryblobs.cc:81-173 | at any moment of any run the next load yields the bytes a plain byte array would hold |
| Blobs.HandlesAreValid | libs/memory-manager/src/memoryblobs.cc:81-149 | refcount = live generation + deleters to come; a live handle points at the allocated current buffer; a writable one implies DIRTY; `require(refcount == 0)` never fails; no buffer is freed twice or used after being freed |
| Blobs.PagesAreConserved | libs/memory-manager/src/memoryblobs.cc:42-67 | every page is free or held by one blob, once, in every state |
| Blobs.WrittenBytesStay | libs/memory-manager/src/memoryblobs.cc:81-173 | two loads of a blob yield the same bytes when nothing was initialised or stored through it in between, whatever else happens to it and to all other blobs |
| Blobs.InitializeThenLoad | libs/memory-manager/src/memoryblobs.cc:159-166 | until the next write every load after `initialize` yields its value in all bytes |
| Blobs.StoreThenLoad | libs/memory-manager/src/memoryblobs.cc:151-157 | until the next write every load after a store yields the stored byte, and the other bytes as they were |
| Arith.CeilDivSwap | libs/tiled-bitmap/src/layer.cc:74-75 | tiling and reducing commute: ceil(ceil(w/T)/8) = ceil(ceil(w/8)/T) |
| Layers.Layer.constructor | libs/tiled-bitmap/src/layer.cc:70-96 | the grid has the tile (i, j) in every place that covers the layer |
| Layers.Layer.GetTile | libs/tiled-bitmap/src/layer.cc:128-136 | the tile, or the out-of-bounds tile exactly outside the grid |
| Layers.Layer.GetTileLine | libs/tiled-bitmap/src/layer.cc:138-146 | a line of tiles, or of out-of-bounds tiles exactly outside |
| Layers.NextLayerSize | libs/tiled-bitmap/src/tiled-bitmap.cc:124-125 | rounding up step by step is ceil(size / 8^k) |
| Layers.NextTileCount | libs/tiled-bitmap/src/layer.cc:74-75 | a layer has ceil(n / 8) times as many tiles as the one below |
| Layers.PaddedSize | libs/tiled-bitmap/src/layer.cc:74-75 | rounding a size up to a multiple of 8 changes no number of tiles and no layer above |
| Layers.LayerSizes | libs/tiled-bitmap/src/tiled-bitmap.cc:91-128 | the loop ends for every size; layer k has size ceil(w/8^k) by ceil(h/8^k); it stops at the first layer that fits a quarter tile |
| Layers.Connect | libs/tiled-bitmap/src/tiled-bitmap.cc:140-170 | `coordinators_[i / 8]` is in range; each coordinator holds exactly the tiles of its 8x8 group, at (i % 8, j % 8), and counts them |
| Layers.TargetsAndSources | libs/tiled-bitmap/src/tiled-bitmap.cc:140-170 | every source has a target tile and every target at least one source |
| Wiring.CoordinatorsServeThePlan | libs/tiled-bitmap/src/tiled-bitmap.cc:140-170 | what `connect` builds is the wiring that the load protocol runs on, for every layer of every bitmap |
| Wiring.PlacesAreDistinct | libs/tiled-bitmap/src/tiled-bitmap.cc:140-170 | no two sources of a coordinator share an offset |
| LoadProtocol.InvStep | libs/tiled-bitmap/src/layercoordinator.cc:36-87 | every step keeps the protocol invariant |
| LoadProtocol.StepUsesOneUnit | libs/tiled-bitmap/src/layercoordinator.cc:48-87 | every step of fetching or reducing uses up one unit of a measure |
| LoadProtocol.QuietIsFinished | libs/tiled-bitmap/src/tiled-bitmap.cc:316-339 | when no step is possible every tile is finished and the counter equals tileCount |
| Pyramid.PlanIsValid | libs/tiled-bitmap/src/tiled-bitmap.cc:91-170 | every bitmap of positive size gives a valid wiring |
| Pyramid.LoadIsSafe | libs/tiled-bitmap/src/tiled-bitmap.cc:316-339 | in every state no tile is reported twice, none before it was fetched or all its sources were reduced; "Too many tiles" is unreachable; a reported tile already shows the flat pyramid |
| Pyramid.LoadTerminates | libs/tiled-bitmap/src/layercoordinator.cc:48-87 | the length of a load is bounded by the measure at its start |
| Pyramid.FinishedShowsFlat | libs/tiled-bitmap/src/compressedtile.cc:91-129 | a finished tile shows the flat pyramid at each of its pixels |
| Pyramid.FlatOutside | libs/tiled-bitmap/src/layercoordinator.cc:68-70 | the flat pyramid is blank outside each layer, as tile memory is |
| Pyramid.LoadComputesFlatPyramid | libs/tiled-bitmap/src/layercoordinator.cc:60-87 | for every bitmap size and every interleaving of fetches, reduce jobs and single pixel stores, when nothing is left to do every pixel of every layer equals the operation applied to its 8x8 block of the zero-padded layer below |
| Pyramid.PaddingBits | plugins/tiff/src/tiffsource.cc:291-293 | widening the bitmap by up to 7 pixels, to whole bytes, changes neither its tiles nor the layers above the bottom one, so the results on loads cover padding bits |
| Pyramid.LoadStarts | libs/tiled-bitmap/src/layer.cc:148-153 | every load has a start |
| Pyramid.LoadCompletes | libs/tiled-bitmap/src/layercoordinator.cc:48-87 | from every state of every load some continuation reaches a state in which nothing is left to do |
| PyramidOps.ClippedShowsAny | libs/tiled-bitmap/src/layeroperations.cc:889-923 | through any number k of layers a clipped pixel is set exactly when one of the 8^k x 8^k pixels under it is |
| PyramidOps.AverageIsClose | libs/tiled-bitmap/src/layeroperations.cc:414-448 | through k layers of rounded averages the value is never above the true mean of its 8^k x 8^k pixels, and less than k (k > 0) below it |
| Bits.SameBits | libs/scroom/inc/scroom/bitmap-helpers.hh:77 | a number is determined by its bits |
| Bits.MaskBits | libs/scroom/inc/scroom/bitmap-helpers.hh:77 | `mask(bps)` has exactly the lowest bps bits, and is 2^bps - 1 |
| SampleIterators.SampleIterator.constructor | libs/scroom/inc/scroom/bitmap-helpers.hh:79-102 | the iterator stands at the given sample, counted over all elements |
| SampleIterators.SampleIterator.Get | libs/scroom/inc/scroom/bitmap-helpers.hh:105 | the sample at that position of the flat sequence |
| SampleIterators.SampleIterator.Set | libs/scroom/inc/scroom/bitmap-helpers.hh:108-111 | for a value within the mask the flat sequence changes at that position only |
| SampleIterators.SampleIterator.Next | libs/scroom/inc/scroom/bitmap-helpers.hh:114-123 | one position further, across elements |
| SampleIterators.SampleIterator.Add | libs/scroom/inc/scroom/bitmap-helpers.hh:142-150 | x positions further, across elements |
| SampleIterators.AdvanceIsSteps | libs/scroom/inc/scroom/bitmap-helpers.hh:114-150 | `+= n` equals n times `++`, from any position |
| SampleIterators.SetAny | libs/scroom/inc/scroom/bitmap-helpers.hh:108-111 | what `set` with any value does to each sample of the element |
| SampleIterators.SetWithinMask | libs/scroom/inc/scroom/bitmap-helpers.hh:105-111 | set then get returns the value, all other samples are unchanged |
| SampleIterators.SafeIff | libs/scroom/inc/scroom/bitmap-helpers.hh:108-111 | other samples are safe for all elements if and only if no bit outside the mask reaches a sample |
| SampleIterators.SamplesDetermineBuffer | libs/scroom/inc/scroom/bitmap-helpers.hh:105 | buffers with the same samples are equal |
| Reduce.BitCountLut.constructor | libs/tiled-bitmap/src/layeroperations.cc:48-59 | every entry is the bit count of its index |
| Reduce.ContributionIsSamples | libs/tiled-bitmap/src/cmyklayeroperations.cc:184-190 | for each of the seven formats the shifts and masks of a byte add up exactly the samples that the iterator finds in it, channel by channel |
| Reduce.ScaledIsMean | libs/tiled-bitmap/src/cmyklayeroperations.cc:285-288 | all formats compute floor(255 * sum / (64 * largest sample)) |
| Reduce.ScaledRange | libs/tiled-bitmap/src/cmyklayeroperations.cc:193-196 | in every format a block of zeros gives 0, and only a block of largest samples gives 255 |
| Reduce.AverageBounds | libs/tiled-bitmap/src/layeroperations.cc:325 | the value v stored for 8x8 pixels satisfies 64 * largest * v <= 255 * sum < 64 * largest * (v + 1), where sum adds the samples in the square of the source image |
| Reduce.AverageIsByte | libs/tiled-bitmap/src/cmyklayeroperations.cc:193-196 | every stored value fits its byte |
| Reduce.ScaledBlockIsAverage | libs/tiled-bitmap/src/layeroperations.cc:425-446 | what the byte loops compute is the average of the 8x8 pixels |
| Reduce.TargetBaseIs | libs/tiled-bitmap/src/cmyklayeroperations.cc:72 | the three different formulas for the target pointer are the same pixel |
| Reduce.SumBlock | libs/tiled-bitmap/src/layeroperations.cc:434-443 | the channel sums of 8 rows |
| Reduce.ReduceLine | libs/tiled-bitmap/src/layeroperations.cc:425-447 | one row of the place is filled, all else is unchanged |
| Reduce.ReduceTile | libs/tiled-bitmap/src/layeroperations.cc:414-448 | for all seven averaging formats: every byte of place (x, y) is the average of its 8x8 source pixels, with the bounds of `Reduce.AverageBounds`, and every other byte keeps its value |
| Reduce.OnePlace | libs/tiled-bitmap/src/layeroperations.cc:420-421 | each byte of the target lies in exactly one of the 64 places |
| Clipped.ClippedBaseIff | libs/tiled-bitmap/src/layeroperations.cc:895-896 | the byte addresses of the 64 places are right if and only if the width is a multiple of 64 |
| Clipped.ClippedIsAny | libs/tiled-bitmap/src/layeroperations.cc:913-921 | a target pixel is set exactly when one of its 8x8 source pixels is |
| Clipped.ClipTile | libs/tiled-bitmap/src/layeroperations.cc:889-923 | every bit of place (x, y) is that, every other bit of the target is unchanged |
| Bridge.DigitOfEncode | libs/tiled-bitmap/src/layeroperations.cc:434-446 | the samples of a pixel are the digits of the number that stands for it in the pyramid |
| Bridge.WholeJob | libs/tiled-bitmap/src/layercoordinator.cc:60-87 | all writes of one reduce job set exactly the pixels of its place, each to the operation applied to its source block |
| Bridge.ReduceIsJob | libs/tiled-bitmap/src/layeroperations.cc:414-448 | for all seven averaging formats: when arrays hold a source tile and its target, the array that `reduce` leaves holds the target after all writes of the job, pixel by pixel |
| Bridge.ReduceJob | libs/tiled-bitmap/src/layercoordinator.cc:60-87 | the same of the method that works in place |
| Bridge.MeanOfBlank | libs/tiled-bitmap/src/layeroperations.cc:414-448 | averaging leaves blank blocks blank, which is what the pyramid asks of its operations |
| Bridge.GreyIsPyramidOp | libs/tiled-bitmap/src/layeroperations.cc:414-448 | the pyramid of `PyramidOps.AverageIsClose` is the one of the 8bpp operations |
| Bridge.ClipIsJob | libs/tiled-bitmap/src/layeroperations.cc:889-923 | the array that the clipped `reduce` leaves holds the target of the clipping pyramid after all writes of the job |
| Bridge.ClipJob | libs/tiled-bitmap/src/layercoordinator.cc:60-87 | the same of the method that works in place |
| Histogram.VoteFor | libs/tiled-bitmap/src/layeroperations.cc:643 | one more vote; the byte counter does not wrap around |
| Histogram.CountBlock | libs/tiled-bitmap/src/layeroperations.cc:635-645 | the counts of all colours of 8x8 pixels, one or two votes each |
| Histogram.PairVotes | libs/tiled-bitmap/src/layeroperations.cc:789-792 | a packed pair (x, y) votes for x and for y, once each |
| Histogram.VotesAtCounted | libs/tiled-bitmap/src/layeroperations.cc:781-793 | the votes for c are the number of the 64 samples that are c or, of pairs, the number with c above plus the number with c below |
| Histogram.UniformPairStays | libs/tiled-bitmap/src/layeroperations.cc:781-818 | 64 pixels that all hold the colours x and y are reduced to a pair of x and y |
| Histogram.TopTwo | libs/tiled-bitmap/src/layeroperations.cc:646-668 | the smallest index with the largest count, and the smallest other index with the largest remaining count, or the first again when only one colour occurs |
| Histogram.PackDecodes | libs/tiled-bitmap/src/layeroperations.cc:670 | `& pixelMask` and `>> pixelOffset` give the pair back, and the pair fits its sample |
| Histogram.MostFrequent | libs/tiled-bitmap/src/layeroperations.cc:781-818 | the stored pair decodes to the two most frequent colours of the 8x8 pixels |
| Colormapped.PairBaseIff | libs/tiled-bitmap/src/layeroperations.cc:617-620 | the byte addresses of all 64 places are those of whole 16 bit elements that begin with the first pixel of the place if and only if an eighth of the width is a multiple of the pixels per byte |
| Colormapped.PairBaseIs | libs/tiled-bitmap/src/layeroperations.cc:617-620 | what each address is, for any number of pixels per byte |
| Colormapped.ReducePixel | libs/tiled-bitmap/src/layeroperations.cc:633-670 | the pair stored is that of the 8x8 pixels at the same place of the layer below, addressed by pixel |
| Colormapped.ReducePairLine | libs/tiled-bitmap/src/layeroperations.cc:622-672 | one row of the place is filled, all else is unchanged |
| Colormapped.UniformPixels | libs/tiled-bitmap/src/layeroperations.cc:759-820 | the same of the pixels of a tile: a square that shows one pair is reduced to that pair |
| Colormapped.ReducePairs | libs/tiled-bitmap/src/layeroperations.cc:611-673 | for 1, 2, 4 and 8 bits per colour, from one colour or from two colours per pixel: every pixel of place (x, y) holds the two most frequent colours of its 8x8 source pixels, every other pixel of the target keeps its value |
| Pipette.SumPixelValues | libs/tiled-bitmap/src/layeroperations.cc:204-255 | the iterator, with its jump at the end of each row, adds up the samples of the rectangle, channel by channel |
| Pipette.DividePipetteColors | libs/tiled-bitmap/src/tiledbitmappresentation.cc:47-54 | every channel is divided |
| Pipette.GetPixelAverages | libs/tiled-bitmap/src/tiledbitmappresentation.cc:224-264 | the sum over tiles and intersections is the sum over the rectangle of the image, divided by its area; empty for an empty area |
| FillTiles.FillLine | plugins/tiff/src/tiffsource.cc:285-296 | each tile gets its part of the scanline, the last one what is left of it |
| FillTiles.FillTiles | plugins/tiff/src/tiffsource.cc:265-297 | all lines of a tile row, in place; the rest of the buffers is unchanged |
| FillTiles.FilledShows | plugins/tiff/src/tiffsource.cc:265-297 | afterwards each tile shows its part of the image that the scanlines hold, for 1, 2, 4 and 8 bits per sample, which is what the pipette requires |
| FillTiles.ScanlinesFit | plugins/tiff/src/tiffsource.cc:270-297 | scanlines of ceil(w * spp * bps / 8) bytes reach into the last of ceil(w / T) tiles and not beyond it, so no copy leaves its buffers |
| FillTiles.FillPlane | libs/tiled-bitmap/src/layer.cc:210-247 | after all rows have been fetched every tile of the plane shows its part of the image, whatever it held before |
| FillTiles.FileAverages | libs/tiled-bitmap/src/tiledbitmappresentation.cc:224-264 | from the scanlines of a file to the pipette: the averages are the sums over the rectangle of the image in the file, divided by its area |
| Bookkeeping.EntriesFollowTokens | libs/util/inc/scroom/impl/bookkeepingimpl.hh:98-105 | in every run a key with a live token is in the map, a key with no live or dying token is absent, and `get` fails exactly on absent keys |
| Bookkeeping.LiveTokenKeepsValue | libs/util/inc/scroom/impl/bookkeepingimpl.hh:228-280 | between two moments at which a token is live, the key keeps its value unless it is set, even while older tokens of the key die |
| Bookkeeping.SetThenGet | libs/util/inc/scroom/impl/bookkeepingimpl.hh:311-347 | `get` returns what `set` stored on a key with a live token |
| Bookkeeping.AssignThenGet | libs/util/inc/scroom/impl/bookkeepingimpl.hh:138-165 | what is assigned through the LValue of a key is what `get` returns |
| Bookkeeping.LastReferenceGone | libs/util/inc/scroom/impl/bookkeepingimpl.hh:258-280 | a value can be locked until the last token or LValue that refers to it is released, and then no more |
| Bookkeeping.ReserveGivesToken | libs/util/inc/scroom/impl/bookkeepingimpl.hh:209-225 | fails exactly when the key is in the map; otherwise a live token for the default value |
| Bookkeeping.ReReserveWhileDying | libs/util/inc/scroom/impl/bookkeepingimpl.hh:228-280 | a key re-reserved while its old token is dying gets a live token for the same value, and the old destructor leaves it in place |
| Bookkeeping.MapBase.Reserve | libs/util/inc/scroom/impl/bookkeepingimpl.hh:209-225 | entry, value and token, or the error |
| Bookkeeping.MapBase.ReReserve | libs/util/inc/scroom/impl/bookkeepingimpl.hh:228-255 | the existing value or a new one, the existing token or a new one; the token returned is live |
| Bookkeeping.MapBase.RemoveToken | libs/util/inc/scroom/impl/bookkeepingimpl.hh:258-280 | the entry goes unless its value has another live token |
| Bookkeeping.MapBase.SetValue | libs/util/inc/scroom/impl/bookkeepingimpl.hh:311-329 | the value is replaced, or the key is invalid |
| Bookkeeping.MapBase.GetValue | libs/util/inc/scroom/impl/bookkeepingimpl.hh:331-347 | the value, or the key is invalid |
| Ruler.CalculateInterval | gui/ruler/src/ruler.cc:244-292 | the search ends and returns the least of all numbers v * 10^n, v in {1, 5, 10, 25}, whose floored spacing is at least 80 pixels |
| Ruler.SpacingBounds | gui/ruler/src/ruler.cc:294-301 | the spacing is the greatest whole number of pixels that does not exceed the interval's share of the ruler |
| Ruler.FirstWideIsLeast | gui/ruler/src/ruler.cc:262-289 | the first candidate that is wide enough is the least one, although the candidates are not tried in increasing order |
| Ruler.NotMuchTooWide | gui/ruler/src/ruler.cc:244-292 | the spacing found is below 400 pixels, unless the interval is 1 |
| Ruler.FirstTickIsGreatest | gui/ruler/src/ruler.cc:303 | the first tick is the greatest multiple of the interval that is not above the lower limit |

## Left out

- User interface, plugins, progress bars, views and their caches, metadata, colour mixing and drawing.
- zlib: a codec is a parameter for which decoding an encoded stream, with any bytes behind it, gives the input back.
- libtiff: scanlines are given as byte rows.
- `TileViewState`, and the load and observer paths of `CompressedTile`: tiles are initialised before they are read, and loading one returns its buffer.
- Widths of machine integers: counters, sizes and sums are unbounded; only the byte counters of the histogram and the bytes that are stored have a proved bound.
- Timed waits, thread interruption and thread creation failures.
- Leaks of blob buffers: a load of a CLEAN or UNINITIALIZED blob while a deleter is outstanding overwrites the pointer of a buffer that the deleter would have freed; only validity and contents are claimed.
- The allocation of `targetTileData` outside the lock in `reduceSourceTile` is part of the step that begins a reduce job; a job then stores pixel by pixel, interleaved with all other jobs.
- Layers.Connect: the coordinators are values in a sequence that is updated, not objects on the heap, so sharing of coordinators between lines is not captured; observer registration is the assumption that a finished tile is reported to its coordinator.
- Reduce.ReduceTile: the seven averaging operations are one method with a table of their strides, byte steps, shifts and divisors; source and target tile have the same size, as `LayerCoordinator` gives them.
- Colormapped.ReducePairs: buffers that the source reads as 16 bit numbers are sequences of such numbers; their alignment and byte order are not modelled. The two operations, for one and for two colours per source pixel, are one method.
- FillTiles.FillLine: the copy for the last tile, which follows the loop in the source, is the last round of the loop.
- FillTiles.FillPlane: the rows are filled one after the other by a loop; that the chain of fetchers fills them in this order is `FetchChain.FetchedInOrder`. The buffers of the plane are distinct, as each tile allocates its own.
- Bridge.ReduceIsJob: is about one job; that jobs which interleave do not disturb each other is proved of the writes, in Pyramid, and not of arrays. The histogram operations have no bridge: they meet `Colormapped.ReducePairs` directly.
- Pipette.GetPixelAverages: starts from the rectangle after rounding outward and intersecting with the image.
- Bookkeeping: the unconditional `remove(k)`, `keys` and `values`, and the strong references taken inside the locked sections.
- Ruler.CalculateInterval: over the reals instead of doubles, and without the range of an int.
- Drawing of ticks, sub-ticks and labels of the ruler, and `scaleToRange`.
