# Touch-configuration sampling jobs, modelled in Dafny

This project models the task-partitioning and stream-replay layer of a
touch-sampling pipeline. The pipeline is split into HTCondor jobs, and each
job is started with a task id.

- **`run` tasks.** A `run` task picks a tunnel vertex and a batch number by
  `divmod(task_id, V)`, where V is the number of tunnel vertices. It shoots
  `tq_batch` random probes from that vertex and saves the first contact of
  each probe as one touch-query batch file.
- **Geometry-processing (gp) tasks.** These split each touch-query batch
  into `tq_batch / gp_batch` sub-batches. Each gp task replays one
  sub-batch. Its samples are tagged with a (vertex id, configuration id)
  key, and that key names every per-sample file.
- **`uvrender` walk.** It goes through all batch files of one vertex with a
  cursor generator. It fetches the UV mesh of each finite sample with a
  second generator. Each mesh is rendered to an atlas-sized image. The
  images are summed twice: once weighted by the inverse distance between the
  touch configuration and the vertex, and once unweighted. Four files are
  written at the end.

The model is written in the form of the source:

- **Pure functions.** Index arithmetic, name builders and the replay
  sequence.
- **Classes with mutable fields.** The three generators are classes whose
  `Next` methods update their cursor fields. Each class also keeps a ghost
  record of what it has yielded.
- **Methods with loops.** `calc_touch` and the `uvrender` accumulation loop.

The engine, the files and the random draws are modelled as follows:

- **Geometry engine.** An `Engine` record of pure functions.
- **Files on disk.** Maps from file name to contents.
- **Random draws.** A `draws` parameter.

In `uvrender`, UV meshes are keyed by configuration id. `uvproj` skips
infinite samples (condor_touch_configuration.py:339-340) and saves the UV
mesh of every finite sample under that sample's conf_id (349-351), so
conf_ids of infinite samples have no UV file. UVObjGenerator expects such
gaps: a missing file yields (None, None) rather than ending the walk (225).
The uvrender loop, however, advances the UV generator only for finite
samples (373-375), so after the first infinite sample the generator's
position lags behind the sample's conf_id. `Atlas.UvRender` models the code
as written, and the discrepancy is recorded under Findings.

Files:

- `types.dfy`: shared types.
- `naming.dfy`: file names and their injectivity.
- `partition.dfy`: TaskPartitioner and gen_touch_q.
- `touch.dfy`: calc_touch and the `run` command.
- `generators.dfy`: the three generators.
- `atlas.dfy`: `uvrender`.
- `commands.dfy`: command dispatch.

## Model

| member | source | states |
|---|---|---|
| Naming.Decimal | src/GP/condor_touch_configuration.py:42 | the decimal rendering of an id is a non-empty digit string, with a leading '0' only for 0 |
| Naming.DecimalRoundTrip | src/GP/condor_touch_configuration.py:42 | reading the decimal rendering back gives the id |
| Naming.DecimalInjective | src/GP/condor_touch_configuration.py:42 | two ids render the same iff they are equal |
| Naming.ParseGeoType | src/GP/condor_touch_configuration.py:353-355 | the geo-type argument is accepted iff it is "rob" or "env"; otherwise it fails with UnknownGeoType; an accepted argument names its geo type |
| Naming.GeoTypeRoundTrip | src/GP/condor_touch_configuration.py:47-48 | parsing the name of a geo type gives that geo type |
| Naming.TouchQName | src/GP/condor_touch_configuration.py:41-42 | the touch-query name is a file directly in the directory, starting with "/touchq-" and ending in ".npz" |
| Naming.IsectGeoName | src/GP/condor_touch_configuration.py:44-45 | the intersection-mesh name is a file directly in the directory, starting with "/isectgeo-from-vert-" and ending in ".obj" |
| Naming.UvGeoName | src/GP/condor_touch_configuration.py:47-48 | the UV-mesh name is a file directly in the directory, starting with "/" + geo type + "-uv-from-vert-" and ending in ".obj" |
| Naming.AtlasTexName | src/GP/condor_touch_configuration.py:50-55 | the atlas texture name is a file directly in the directory, starting with "/tex-" + geo type + "-from-vert-" and ending in ".png", for either branch |
| Naming.AtlasName | src/GP/condor_touch_configuration.py:57-62 | the atlas array name is a file directly in the directory, starting with "/atlas-" + geo type + "-from-vert-" and ending in ".npz", for either branch |
| Naming.Atlas2PrimName | src/GP/condor_touch_configuration.py:64-65 | the atlas-to-primitive name is a file directly in the directory, starting with "/atlas2prim-" and ending in ".npz" |
| Naming.TouchQNameInjective | src/GP/condor_touch_configuration.py:41-42 | touch-query names are equal iff their (vertex, batch) keys are equal |
| Naming.IsectGeoNameInjective | src/GP/condor_touch_configuration.py:44-45 | intersection-mesh names are equal iff their (vertex, configuration) keys are equal |
| Naming.UvGeoNameInjective | src/GP/condor_touch_configuration.py:47-48 | UV-mesh names are equal iff their (geo type, vertex, configuration) keys are equal |
| Naming.AtlasTexNameInjective | src/GP/condor_touch_configuration.py:50-55 | atlas texture names are equal iff (geo type, vertex, index, nw) are equal |
| Naming.AtlasNameInjective | src/GP/condor_touch_configuration.py:57-62 | atlas array names are equal iff (geo type, vertex, index, nw) are equal |
| Naming.Atlas2PrimNameInjective | src/GP/condor_touch_configuration.py:64-65 | atlas-to-primitive names are equal iff the geo types are equal |
| Naming.AtlasNwSuffix | src/GP/condor_touch_configuration.py:50-62 | an atlas name ends in "-nw" plus the extension iff nw is set |
| Naming.AtlasIndexPart | src/GP/condor_touch_configuration.py:50-62 | right after the vertex id, an atlas name continues with "-" and a digit iff an index is given |
| Naming.AtlasStyleNameLast | src/GP/condor_touch_configuration.py:53-62 | an atlas name ends in the last character of its extension |
| Partition.NewPartitioner | src/GP/condor_touch_configuration.py:104-114 | no gp batch: no gp_per_tq; gp batch 0: ZeroDivision; otherwise construction succeeds iff tq_batch % gp_batch == 0, else NotDivisible; on success the fields are the arguments, gp_per_tq * gp_batch == tq_batch exactly, and Valid holds |
| Partition.Partitioner.BatchVertIndex | src/GP/condor_touch_configuration.py:119-120 | vertex < V and batch * V + vertex == task id |
| Partition.Partitioner.VertId | src/GP/condor_touch_configuration.py:122-123 | the vertex id is below V, and batch id * V + vertex id == task id |
| Partition.Partitioner.BatchId | src/GP/condor_touch_configuration.py:125-126 | the batch id is the floor quotient: batch id * V <= task id < batch id * V + V |
| Partition.Partitioner.TunnelVertex | src/GP/condor_touch_configuration.py:128-129 | the vertex is one of the tunnel vertices, the one at index task id mod V |
| Partition.Partitioner.TqBatchSize | src/GP/condor_touch_configuration.py:131-132 | the touch-query batch size; on a valid partitioner with gp batches it is gp_per_tq * gp_batch |
| Partition.BatchVertIndexIsDivMod | src/GP/condor_touch_configuration.py:119-126 | (batch, vertex) is the index pair iff batch * V + vertex == task id, so the pair is divmod(task id, V) and get_vert_id/get_batch_id are its components |
| Partition.NextBatchSameVertex | src/GP/condor_touch_configuration.py:119-129 | task id + V samples the same tunnel vertex, one batch later |
| Partition.Partitioner.TaskIdGpToTq | src/GP/condor_touch_configuration.py:134-135 | no gp_per_tq: NoGpBatch; gp_per_tq 0: ZeroDivision; otherwise (quotient, remainder) with remainder < gp_per_tq and quotient * gp_per_tq + remainder == task id |
| Partition.GpTaskOwner | src/GP/condor_touch_configuration.py:134-135 | gp task tq * k + j (j < k) belongs to touch-query task tq, sub-batch j |
| Partition.TqNameInjective | src/GP/condor_touch_configuration.py:161-163 | two task ids get the same touch-query file name iff they are equal |
| Partition.Partitioner.TqName | src/GP/condor_touch_configuration.py:161-163 | the batch file of a task lies directly in io_dir, starts with "/touchq-" and ends in ".npz" |
| Partition.Partitioner.IsectName | src/GP/condor_touch_configuration.py:165-166 | the intersection-mesh name of (vertex, configuration) under io_dir, a file directly in io_dir ending in ".obj" |
| Partition.Partitioner.UvName | src/GP/condor_touch_configuration.py:168-169 | the UV-mesh name of (geo type, vertex, configuration) under io_dir, a file directly in io_dir ending in ".obj" |
| Partition.TqGen | src/GP/condor_touch_configuration.py:142-147 | the replay is complete iff every row start .. start + size - 1 exists; then it has exactly size samples; sample i is row start + i with vertex id and configuration id base + start + i; a replay that stops early stops at the first missing row |
| Partition.Partitioner.GenTouchQ | src/GP/condor_touch_configuration.py:141-154 | fails with NoGpBatch or ZeroDivision when there is no usable gp_per_tq; fails with MissingFile iff the owning batch file is absent; otherwise it is the replay of sub-batch task id mod gp_per_tq of batch file task id div gp_per_tq, with that batch's vertex id and configuration base |
| Partition.GenTouchQIsTqGen | src/GP/condor_touch_configuration.py:148-154 | gp task tq * k + rem replays sub-batch rem of batch file tq: gp_batch rows from row rem * gp_batch, vertex tq mod V, base (tq div V) * tq_batch |
| Partition.TqGenWithin | src/GP/condor_touch_configuration.py:142-154 | every row read by a sub-batch lies below tq_batch; on a full batch file every sub-batch is complete |
| Partition.TqGenSubBatch | src/GP/condor_touch_configuration.py:142-154 | on a full batch file, sub-batch r is exactly slice r of the batch's samples |
| Partition.TqGenFacts | src/GP/condor_touch_configuration.py:142-154 | the replay of a sub-batch has at most gp_batch samples (exactly gp_batch when complete); sample i carries row SubStart + i, vertex VertId(tq) and the matching configuration id |
| Partition.GenTouchQSamples | src/GP/condor_touch_configuration.py:141-154 | with the batch file present, gen_touch_q succeeds and yields exactly those facts |
| Partition.SubBatchSlice | src/GP/condor_touch_configuration.py:141-154 | sub-batch j of a full batch is rows j * gp_batch .. (j + 1) * gp_batch - 1 |
| Partition.SubBatchesPartition | src/GP/condor_touch_configuration.py:141-154 | the gp tasks of one touch-query task together replay every sample of its batch exactly once, in order |
| Partition.ConfIdsCoverBatch | src/GP/condor_touch_configuration.py:141-154 | those gp tasks yield tq_batch samples with configuration ids base .. base + tq_batch - 1 in increasing order, all under the batch's vertex |
| Partition.KeyDecompose | src/GP/condor_touch_configuration.py:145 | (tq mod V, (tq div V) * T + r * gp + i) determines (tq, r, i) |
| Partition.SampleKeysUnique | src/GP/condor_touch_configuration.py:156-160 | two replayed samples with the same (vertex id, configuration id) come from the same gp task and position |
| TouchSampling.TouchBatch | src/GP/condor_touch_configuration.py:296-302 | the stored batch file has batch_size rows in each of its six arrays |
| TouchSampling.CalcTouch | src/GP/condor_touch_configuration.py:171-185 | five lists of length batch_size; entry i of each is the matching part of probe i's contact, the contact ProbeContact finds by searching, with step 0.0125 / 8, from the vertex's unit state towards that state perturbed by draw i |
| TouchSampling.RunTask | src/GP/condor_touch_configuration.py:286-302 | no tunnel vertex: ZeroDivision; otherwise it saves, under the touch-query name of (task mod V, task div V), the batch of that vertex |
| TouchSampling.RunThenReplay | src/GP/condor_touch_configuration.py:286-302 | when a batch was written by `run`, its gp tasks replay the touch and flag of every probe in probe order, with configuration ids base .. base + tq_batch - 1 |
| Generators.TouchQRunBound | src/GP/condor_touch_configuration.py:245-257 | if the batch files 0 .. b - 1 of a vertex exist, there are at least b files, so the walk over batches ends |
| Generators.IsectRunBound | src/GP/condor_touch_configuration.py:196-201 | the same bound for intersection-mesh files |
| Generators.StreamSplit | src/GP/condor_touch_configuration.py:244-264 | the whole stream is the records of batches 0 .. b - 1 followed by the stream from batch b |
| Generators.StreamFrom | src/GP/condor_touch_configuration.py:244-264 | the stream from batch b: empty and clean when batch file b is missing; otherwise it starts with batch b's records (BatchStream: row k as (TOUCH_V[k], IS_INF[k]) while both arrays have row k, failing unless the file has a touch row and a flag for every touch row), and is only them when batch b fails |
| Generators.LoadBatch | src/GP/condor_touch_configuration.py:245-255 | loading an existing batch puts the cursor at row 0 of it |
| Generators.RecordInWhole | src/GP/condor_touch_configuration.py:258 | row k of the current batch is the next record of the whole stream |
| Generators.FailInWhole | src/GP/condor_touch_configuration.py:258 | a read past the end of the current arrays is where the whole stream ends, with an error |
| Generators.EndOfWhole | src/GP/condor_touch_configuration.py:249-257 | a missing batch file ends the stream cleanly after the records of the batches before it |
| Generators.NextBatch | src/GP/condor_touch_configuration.py:260-263 | after a batch read without error the cursor moves to the next batch |
| Generators.CursorStep | src/GP/condor_touch_configuration.py:258-263 | reading a row, then moving to the next row or past the batch, keeps the cursor state |
| Generators.TouchQGenerator.constructor | src/GP/condor_touch_configuration.py:234-239 | batch 0, row 0, nothing loaded, nothing yielded |
| Generators.TouchQGenerator.YieldedIsPrefix | src/GP/condor_touch_configuration.py:244-264 | what has been yielded is a prefix of the whole stream |
| Generators.TouchQGenerator.ReadRow | src/GP/condor_touch_configuration.py:258-264 | returns the next record of the stream and advances the row, or past the batch after its last row; a read past the end fails and changes nothing |
| Generators.TouchQGenerator.Next | src/GP/condor_touch_configuration.py:244-264 | returns record n of the whole stream while there is one; after it, Stop when the stream ended at a missing file, or the read error; Stop iff nothing was loaded and the next batch file is missing; loads reset the row |
| Generators.ObjGenerator.constructor | src/GP/condor_touch_configuration.py:188-191 | counter 0, nothing yielded |
| Generators.ObjGenerator.Next | src/GP/condor_touch_configuration.py:196-204 | stops iff mesh file `counter` is missing, and then changes nothing; otherwise returns that mesh and the counter advances by one |
| Generators.ObjGenerator.YieldedIsPrefix | src/GP/condor_touch_configuration.py:196-204 | the meshes yielded are a prefix of the run up to the first missing file; the walk has ended iff they are all of it |
| Generators.RunFrom | src/GP/condor_touch_configuration.py:196-204 | the run from c lists the meshes of files c, c + 1, ... in order |
| Generators.UVObjGenerator.constructor | src/GP/condor_touch_configuration.py:211-215 | counter 0, nothing yielded |
| Generators.UVObjGenerator.Next | src/GP/condor_touch_configuration.py:220-226 | the counter advances by exactly one on every call; returns UvAt of the old counter: the mesh of that configuration's UV file, or None when the file is missing; it never stops |
| Atlas.Weight | src/GP/condor_touch_configuration.py:384 | the weight is positive; it is 1/d for d at least 1e-4, and 1/1e-4 below |
| Atlas.Sum | src/GP/condor_touch_configuration.py:385-390 | the running sum is defined iff at least one image contributed |
| Atlas.SumIsPixelwise | src/GP/condor_touch_configuration.py:385-390 | the running sum, with the first image initialising it and Add adding the next one pixel by pixel, is at each pixel the sum of all images' pixels |
| Atlas.SumStep | src/GP/condor_touch_configuration.py:385-390 | adding one image: the first one initialises the sum, later ones are added to it |
| Atlas.FiniteCount | src/GP/condor_touch_configuration.py:373-375 | the number of finite samples is at most the number of samples |
| Atlas.Pairings | src/GP/condor_touch_configuration.py:371-378 | at most one rendered pair per sample |
| Atlas.PairingsStep | src/GP/condor_touch_configuration.py:371-378 | one more sample: infinite ones are skipped, and as written they do not advance the UV cursor; a finite sample whose UV file is missing is skipped; otherwise (touch, mesh at the cursor) is appended |
| Atlas.CursorAlignedIff | src/GP/condor_touch_configuration.py:373-375 | as written, the UV cursor equals the sample position iff no infinite sample came before |
| Atlas.NoInfAgree | src/GP/condor_touch_configuration.py:373-375 | without infinite samples, the as-written and the aligned pairings agree |
| Atlas.AlignedPairAt | src/GP/condor_touch_configuration.py:371-378 | aligned, rendered pair k is a finite sample j together with the UV mesh of configuration j |
| Atlas.AlignedSampleRendered | src/GP/condor_touch_configuration.py:371-378 | aligned, every finite sample whose UV mesh exists is rendered with that mesh |
| Atlas.MisalignedExample | src/GP/condor_touch_configuration.py:373-375 | with UV files for configurations 1 (m1) and 2 (m2) only, as uvproj leaves them for samples (q0, infinite), (q1, finite), (q2, finite): as written the pairings are [(q2, m1)]; aligned they are [(q1, m1), (q2, m2)] |
| Atlas.NwImages | src/GP/condor_touch_configuration.py:380-383 | one unweighted image per pair: the rendering of its mesh |
| Atlas.WImages | src/GP/condor_touch_configuration.py:380-384 | one weighted image per pair: its rendering scaled (Scale, pixel by pixel) by the weight of its touch configuration's distance to the vertex |
| Atlas.ImagesStep | src/GP/condor_touch_configuration.py:380-384 | one more pair appends one image to each list |
| Atlas.GreenInjective | src/GP/condor_touch_configuration.py:404-408 | different images give different textures; Green puts the image in the green channel and zeros elsewhere |
| Atlas.Outputs | src/GP/condor_touch_configuration.py:404-410 | four writes: texture, array, texture, array |
| Atlas.AtlasNameEnds | src/GP/condor_touch_configuration.py:50-62 | texture names end in 'g' and array names in 'z' |
| Atlas.OutputNamesDistinct | src/GP/condor_touch_configuration.py:406-410 | the four output files have pairwise different names |
| Atlas.OutputsPairUp | src/GP/condor_touch_configuration.py:404-410 | corrected, each texture shows the array saved beside it, and the "-nw" array holds the unweighted sum |
| Atlas.NwArrayAsWritten | src/GP/condor_touch_configuration.py:410 | as written, when the sums differ, the "-nw" array repeats the weighted array and is not what its texture shows |
| Atlas.NothingRenderedFails | src/GP/condor_touch_configuration.py:365-404 | on a cleanly ending stream, the command fails with NothingAccumulated iff no pair was rendered |
| Atlas.RenderedWrites | src/GP/condor_touch_configuration.py:404-410 | otherwise it writes the outputs of the weighted and the unweighted sum of the pairs' images |
| Atlas.AddSample | src/GP/condor_touch_configuration.py:372-390 | one loop iteration: the UV cursor, the pairings and both sums move exactly as one more sample prescribes |
| Atlas.NextRecord | src/GP/condor_touch_configuration.py:371 | the next record of the whole touch stream, or its clean end with everything yielded, or its read error |
| Atlas.AccumulateStep | src/GP/condor_touch_configuration.py:371-390 | one turn of the loop: at the end of the stream nothing changes; otherwise one more record is yielded and the UV cursor, the pairings and both sums move as AddSample prescribes |
| Atlas.Accumulate | src/GP/condor_touch_configuration.py:365-390 | the loop fails with the read error when the touch stream ends in one; otherwise it returns the weighted and the unweighted sums over all rendered pairs (None when there is none) |
| Atlas.AccumulatedFails | src/GP/condor_touch_configuration.py:371 | a stream that ends in a read error makes the accumulation fail |
| Atlas.AccumulatedSums | src/GP/condor_touch_configuration.py:371-390 | sums over all of a cleanly ending stream are the accumulation result |
| Atlas.UvRender | src/GP/condor_touch_configuration.py:352-410 | an unknown geo type fails with UnknownGeoType; a vertex id past the tunnel vertices fails with IndexOutOfRange; otherwise the outcome of rendering the whole stream as written |
| Atlas.UvRenderCorrected | src/GP/condor_touch_configuration.py:352-410 | the same with the aligned pairing and the "-nw" array holding the unweighted sum |
| Atlas.Render | src/GP/condor_touch_configuration.py:352-410 | the same contract, for either variant |
| Commands.Dispatch | src/GP/condor_touch_configuration.py:270-282 | no argument: usage; the command fails iff its word is not a help word, "show" or a job word, and then with UnknownCommand; an accepted job word selects the command of that word |
| Commands.DispatchWord | src/GP/condor_touch_configuration.py:274-282 | every command is selected by its own word |
| Commands.CommandWorld | src/GP/condor_touch_configuration.py:67-87 | of the job commands, exactly uvrender and atlas2prim are set up with a renderer (CreateWorld: the word contains "render" or is atlas2prim), and all but run and isect load the UV-mapped models |
| Commands.SampleRejected | src/GP/condor_touch_configuration.py:282 | "sample" is given the UV models at engine setup (line 81), yet every argument list starting with it is rejected at dispatch |

## Left out

- Engine: the geometry/OpenGL engine is modelled as the opaque pure
  functions of `Engine`. This covers unit-state translation, state
  application, contact search, barycentric rendering and distance. The
  intersection-geometry and surface-projection calls belong to the `isect`
  and `uvproj` branches, which are not modelled. The clear/add calls before a render,
  and framebuffer_to_file, are folded into `renderBarycentric`.
- File I/O (np.load, np.savez, imsave, load_obj_1/save_obj_1,
  os.path.exists): files are maps from name to contents. Outputs are
  returned as a list of writes. A texture write carries the real-valued
  Rgb image; imsave's rescaling of a float array to bytes by the array's
  own minimum and maximum is not modelled, so statements about the "-nw"
  texture hold for the arrays written, not for the PNG bytes.
- Random draws of calc_touch: they are the `draws` parameter.
- Floating point: weights and pixels are mathematical reals. NaN, infinity
  and float32 rounding are not modelled.
- Prints, the usage text and the `show` output: console output only.
- The tunnel vertex file is not modelled as a file. It is the `tunnelV`
  sequence, and its loading in the partitioner's constructor and in main
  is left out.
- There is no requirement on ids or batch sizes beyond those stated. Task
  ids, vertex ids and batch sizes are natural numbers, so negative
  command-line values and Python's negative indexing are not modelled.
- Partition.Partitioner.BatchVertIndex: requires a non-empty tunnel vertex
  array. The source raises ZeroDivisionError there, and only RunTask models
  that error path.
- Partition.Partitioner.GenTouchQ: the `members` argument is fixed to its
  default (TOUCH_V, IS_INF). A missing batch file is modelled as the
  MissingFile error, where the source raises IOError from np.load.
- Generators.BatchStream: a batch file lacking the TOUCH_V or IS_INF key
  (a KeyError in the source) is not modelled. Batch files always hold both
  arrays.
- The `isect`, `uvproj`, `project` and `atlas2prim` branches of main, and
  the argument parsing of `run`, are not part of this model. `isect` and
  `uvproj` each replay gen_touch_q, skip infinite samples and call the
  engine once per sample; the replay is modelled by GenTouchQ. `project`
  is disabled code, and `atlas2prim` is pure rendering.
- The counter `i` in the uvrender loop is dropped: it is only read inside
  a disabled block.

## Findings

| source | as written | input that shows it | evidently intended | confidence | as-written member | corrected member |
|---|---|---|---|---|---|---|
| src/GP/condor_touch_configuration.py:373-375 | the UV generator is advanced only for finite samples, so after an infinite sample the mesh fetched for a finite sample is looked up under an earlier configuration id: a finite sample whose fetched file is missing is dropped, a later sample is weighted with another sample's mesh, and the last meshes are never rendered | UV files only for configurations 1 (m1) and 2 (m2), as uvproj writes them for touch samples (q0, infinite), (q1, finite), (q2, finite): the pairings are [(q2, m1)], so q1 is dropped, m2 is never rendered and m1 is weighted by q2's distance | uvproj stores each finite sample's UV mesh under its own conf_id (349-351) and UVObjGenerator tolerates missing files in the middle (225), so the generator is meant to advance on every sample: pairings [(q1, m1), (q2, m2)] | not executed | Atlas.MisalignedExample | Atlas.AlignedPairAt |
| src/GP/condor_touch_configuration.py:410 | the "-nw" .npz array is saved from the weighted sum `afb` | any two contributions at different distances from the vertex, so that the weighted and unweighted sums differ: the "-nw" array differs from the image in the "-nw" texture | save `afb_nw` under the "-nw" array name | not executed | Atlas.NwArrayAsWritten | Atlas.OutputsPairUp |
