# RS485 / ADXL345 sensor station — a verified model of its core

The station reads three ADXL345 accelerometers. They sit behind a TCA9548A I2C
multiplexer and are sampled at about 500 Hz. The station also reads an RS485
weather station (temperature, humidity, wind speed and direction) once per
second, shows both on a dashboard, and forwards everything to an ingest server
through a batching sender. This project models the logic of that pipeline in
Dafny and proves its properties:

- `bus.dfy` (module `Bus`): the I2C bus as an object. It keeps the trace of every
  operation issued. The environment is an oracle `respond` that answers the k-th
  operation either with data or with an `OSError`.
- `adxl.dfy` (module `Adxl`), the device helpers:
  - multiplexer channel select (`1 << channel`);
  - register write and block read with their error codes;
  - the little-endian 16-bit two's-complement Z decoder;
  - the three-write device bring-up.
- `median.dfy` (module `Median`): insertion sort and the `sorted(vals)[len//2]`
  offset estimate. It proves the estimate is a median, lies between min and max,
  and that a strict majority value always wins.
- `logger.dfy` (module `AdxlLogger`), the acquisition thread:
  - bring-up of the three devices;
  - per-device calibration with its fallback to 0;
  - the deadline-additive sampling loop, which publishes each calibrated triple as
    the latest snapshot, as one CSV row and to the sender.
- `sender.dfy` (module `RealtimeSender`), the batching sender:
  - two FIFO buffers (environmental records and accelerometer triples);
  - one delivery-loop iteration: pop one record, then apply the size-or-time flush
    rule and split off the batch;
  - the posted bodies and the URL normalisation.
- `compass.dfy` (module `Compass`): `deg_to_cardinal`.
- `dashboard.dfy` (module `Dashboard`), the data side of the dashboard's `read_all`:
  - the reading of one tick;
  - the 600-row rolling table;
  - the five aligned series truncated to `MAX_SAMPLES`;
  - the record handed to the sender;
  - the `filtered` helper of `redraw_plots`.
- `config.dfy` (module `Config`), `records.dfy` (module `Records`): constants and
  shared value types.

Modelling conventions:

- **Clocks are inputs.** The sampling loop takes a sequence of microsecond
  readings. The delivery loop takes a sequence of (seconds, UTC timestamp) pairs.
- **Failures are outcomes.** A failed multiplexer write during bring-up or in the
  sampling loop escapes to the catch-all around `run()` and ends the thread. The
  model sets `Logger.halted`.
- **Posts are returned, not performed.** `Sender.Step` returns the requests it
  would post. Whether a post succeeds has no effect on the sender's state, so it
  is not an input.
- **The bad-batch-size crash is modelled.** A batch size of 0, or a negative one
  with at most -batch_size samples buffered, makes a due flush take an empty chunk.
  `chunk[0][0]` then raises outside every handler and kills the delivery thread; the
  model clears `Sender.alive`. A negative batch size with more samples buffered takes
  all but the newest -batch_size samples, as Python's `buf[:take]` does, and the
  batch is posted normally.
- **Ghost histories give end-to-end FIFO.** The ghost fields `pushed*`,
  `takenRs485` and `flushedAdxl` record everything that entered and left the
  buffers. The invariant `taken + buffer == pushed` gives FIFO order across any
  number of iterations.

- **Missed periods are caught up, not skipped.** In `app/sensors/adxl.py:150-153`
  the deadline advances by one period per poll whenever `current - previous >=
  INTERVAL_US`. A loop that has fallen k periods behind therefore fires on k
  consecutive polls until it has caught up. `AdxlLogger.CatchUpWhenBehind` proves
  that two rounds fire at the same clock reading.

## Model

| member | source | states |
|---|---|---|
| Config.ChannelsInRange | app/config.py:18-20 | The three accelerometer channels 1, 2 and 4 exist on an eight-channel multiplexer and are distinct. |
| Bus.SMBus.Issue | app/sensors/adxl.py:23 | A bus transaction appends exactly its operation to the trace; its reply is the environment's answer to that position. |
| Adxl.SelectMask | app/sensors/adxl.py:20-23 | A mask exists exactly for channels 0..7; it has exactly one bit set, the channel's bit. |
| Adxl.Select | app/sensors/adxl.py:20-24 | An out-of-range channel issues no bus operation; a valid channel issues exactly one write of its mask to MUX_ADDR, and a raised OSError is reported. |
| Adxl.WriteReg | app/sensors/adxl.py:27-32 | One write to ADXL_ADDR; 0 on success, 1 on OSError. |
| Adxl.BlockResult | app/sensors/adxl.py:35-42 | (0, data) exactly when the read succeeded with the requested length; (5, []) on a length mismatch; (1, []) on OSError. |
| Adxl.ReadMulti | app/sensors/adxl.py:35-42 | One block read of ADXL_ADDR; its result is the BlockResult of the reply. |
| Adxl.DecodeZ | app/sensors/adxl.py:49-52 | The decoded value always lies in [-32768, 32767]. |
| Adxl.DecodeZValue | app/sensors/adxl.py:49-52 | hi·256 + lo, minus 65536 exactly when the high byte has its top bit set. |
| Adxl.DecodeEncode | app/sensors/adxl.py:49-52 | Encoding any value in [-32768, 32767] into two bytes and decoding returns it. |
| Adxl.EncodeDecode | app/sensors/adxl.py:49-52 | Decoding any two bytes and encoding gives back the same two bytes. |
| Adxl.DecodeExamples | app/sensors/adxl.py:49-52 | [0x00,0x80] is -32768, [0xFF,0x7F] is 32767, [0x10,0x00] is 16. |
| Adxl.ZReading | app/sensors/adxl.py:45-52 | A failed read gives (err, 0) with the read's error code; a successful one gives (0, decoded value); the value is always in 16-bit range. |
| Adxl.ReadZ | app/sensors/adxl.py:45-52 | One two-byte read of register 0x36, with the ZReading of its reply. |
| Adxl.InitOnCurrentChannel | app/sensors/adxl.py:55-61 | Exactly the writes 0x2C←0x0C, 0x31←0x0A, 0x2D←0x08, in order, whatever each returns. |
| Median.Insert | app/sensors/adxl.py:124 | Inserting into a sorted list keeps it sorted and adds exactly the element. |
| Median.SortAsc | app/sensors/adxl.py:124 | The result is sorted and a permutation of the input. |
| Median.OffsetOf | app/sensors/adxl.py:122-127 | Error 0 exactly when there are values; (1, 0) for none; the offset is one of the values. |
| Median.OffsetIsMedian | app/sensors/adxl.py:124-126 | At most len/2 values are below the offset and at most (len-1)/2 above it: the upper median. |
| Median.OffsetWithinRange | app/sensors/adxl.py:124-126 | The offset lies between the least and the greatest value. |
| Median.MajorityIsOffset | app/sensors/adxl.py:124-126 | A value occurring more than len/2 times is the offset, whatever the other values are. |
| Median.SpikeExample | app/sensors/adxl.py:124-126 | [100,100,100,100,9000] gives offset 100. |
| AdxlLogger.Collected | app/sensors/adxl.py:116-121 | The successful values of `count` reads, in order, at most one per read and each in 16-bit range. |
| AdxlLogger.CollectedDependsOnlyOnItsReads | app/sensors/adxl.py:113-121 | The collected values depend only on the replies to the measured reads. |
| AdxlLogger.CollectedAllFailed | app/sensors/adxl.py:117-120 | When every measured read fails, nothing is collected. |
| AdxlLogger.CollectedConstant | app/sensors/adxl.py:117-120 | A device that always answers the same two bytes yields that decoded value for every read. |
| AdxlLogger.CalibrationOps | app/sensors/adxl.py:108-121 | Nothing for a bad channel, only the select when it raises, otherwise the select followed by discard + samples Z reads. |
| AdxlLogger.CalibrationResult | app/sensors/adxl.py:108-129 | The error code is 0 or 1, and every failure is (1, 0); a bad channel or a raising select fails; a successful offset is in 16-bit range. |
| AdxlLogger.MeasuredOffset | app/sensors/adxl.py:113-127 | The error code is 0 or 1, a failure is (1, 0), and a successful offset is in 16-bit range. |
| AdxlLogger.DiscardIrrelevant | app/sensors/adxl.py:111-129 | The replies to the discarded warm-up reads never change the calibration result. |
| AdxlLogger.NoSuccessfulReads | app/sensors/adxl.py:122-123 | With no successful measured read the calibration result is (1, 0). |
| AdxlLogger.CalibrationInRange | app/sensors/adxl.py:122-127 | A successful calibration's offset is one of the collected values and lies between their least and greatest. |
| AdxlLogger.ConstantDeviceOffset | app/sensors/adxl.py:108-129 | Calibrating a device that always returns the same reading yields (0, that reading). |
| AdxlLogger.DiscardReads | app/sensors/adxl.py:113-115 | Exactly `count` Z reads are issued. |
| AdxlLogger.CollectReads | app/sensors/adxl.py:116-121 | Exactly `count` Z reads are issued and the successful values are kept in order. |
| AdxlLogger.MeasureOffset | app/sensors/adxl.py:113-127 | discard + samples reads; the result is the offset estimate of the values collected after the discarded reads. |
| AdxlLogger.CalcOffset | app/sensors/adxl.py:108-129 | The bus operations are the select then discard + samples reads (only the select when it raises, nothing for a bad channel); every failure is (1, 0), otherwise the median estimate. |
| AdxlLogger.Due | app/sensors/adxl.py:152 | A round is due only when the clock is strictly past the cursor. |
| AdxlLogger.DueStaysDue | app/sensors/adxl.py:152 | Once a round is due it stays due at every later clock reading. |
| AdxlLogger.Advance | app/sensors/adxl.py:152-153 | The cursor moves by exactly one period or not at all; it moves exactly when the round is due, and never past the clock reading. |
| AdxlLogger.Deadline | app/sensors/adxl.py:150-153 | The cursor after the first n polls never falls below the start and is at most n periods past it. |
| AdxlLogger.Fires | app/sensors/adxl.py:150-153 | At most one round fires per poll: at most n rounds in the first n polls. |
| AdxlLogger.DeadlineCountsPeriods | app/sensors/adxl.py:150-153 | The deadline cursor after the first n polls is the start plus one period per fired round. |
| AdxlLogger.KeepsPace | app/sensors/adxl.py:150-153 | Polled at least once per period, the deadline after the n-th poll never passes that clock reading and never falls a whole period behind it. |
| AdxlLogger.FiresMatchElapsed | app/sensors/adxl.py:150-153 | With zero processing delay, the number of rounds equals the number of whole periods elapsed. |
| AdxlLogger.CatchUpWhenBehind | app/sensors/adxl.py:150-153 | Two periods behind, a round fires and the next poll at the same clock reading fires again. |
| AdxlLogger.RoundTriple | app/sensors/adxl.py:155-168 | Each value is raw minus its device's offset; a failed read yields minus the offset. |
| AdxlLogger.RoundAtStart | app/sensors/adxl.py:150-168 | The j-th of back-to-back rounds from bus position t is the round that starts 6·j operations later. |
| AdxlLogger.Rounds | app/sensors/adxl.py:150-173 | k back-to-back rounds give k rows. |
| AdxlLogger.RoundsIndex | app/sensors/adxl.py:150-173 | Row j of k back-to-back rounds is the calibrated triple of the round starting 6·j operations in. |
| AdxlLogger.RoundsStep | app/sensors/adxl.py:170-180 | Appending the next round's triple to a log holding k rounds gives the log of k + 1 rounds. |
| AdxlLogger.TrackedStep | app/sensors/adxl.py:150-180 | One pass of the loop keeps rows, snapshot, sender samples and buffer equal to the rounds read so far, with one more round exactly when a row was published, which, unless the thread ended, is exactly when a period had elapsed. |
| AdxlLogger.SteadyDevicesReadZero | app/sensors/adxl.py:131-168 | Three devices at rest, answering the same bytes during calibration and in a later round, give that round the calibrated triple (0, 0, 0). |
| AdxlLogger.SteadyReadingCancels | app/sensors/adxl.py:155-158 | A device at rest, answering the bytes it answered during calibration, reads 0 once its offset is subtracted. |
| AdxlLogger.Fallback | app/sensors/adxl.py:136-138 | A failed calibration leaves offset 0; a successful one keeps its estimate. |
| AdxlLogger.BringUpAll | app/sensors/adxl.py:97-105 | Succeeds exactly when none of the three multiplexer writes raises; then the bus saw select plus three writes per device, in order. |
| AdxlLogger.CalibrateAll | app/sensors/adxl.py:131-138 | The three calibrations run in order on channels 1, 2, 4, each from where the previous ended; each offset is the calibration's estimate or 0. |
| AdxlLogger.ReadRound | app/sensors/adxl.py:155-168 | The three blocks run in order and stop at the first failed multiplexer write; success holds exactly when none of the round's three selects raises, and then the bus saw the six round operations and the triple is RoundTriple of the round's position. |
| AdxlLogger.ReadChannel | app/sensors/adxl.py:155-168 | One select then one Z read (only the select when it raises); the value is raw minus the offset. |
| AdxlLogger.Logger.constructor | app/sensors/adxl.py:70-83 | Running, offsets 0, no latest triple, no rows. |
| AdxlLogger.Logger.Stop | app/sensors/adxl.py:85-86 | Clears running and changes nothing else. |
| AdxlLogger.Logger.GetLatest | app/sensors/adxl.py:88-90 | Returns the latest published triple. |
| AdxlLogger.Logger.Setup | app/sensors/adxl.py:92-147 | A faulty bring-up halts the thread; otherwise the bus saw bring-up then the three calibrations, the offsets are their fallbacks, the log is empty and the cursor starts at the current clock reading. |
| AdxlLogger.Logger.Publish | app/sensors/adxl.py:170-180 | The same triple becomes the latest snapshot, one new CSV row and one new sender sample, and nothing else in the sender changes. |
| AdxlLogger.Logger.Tick | app/sensors/adxl.py:150-180 | Fires exactly when a period has elapsed and then advances the cursor by one period; a fault-free round reads channels 1, 2, 4 in order and publishes the calibrated triple three ways; a faulting round halts before publishing; a non-firing poll touches nothing. |
| AdxlLogger.Logger.Poll | app/sensors/adxl.py:150-180 | One pass advances the cursor as Advance says, keeps the rows, snapshot and sender equal to the rounds read so far, counts one more round exactly when one was due (unless the thread ended), and changes nothing else in the sender. |
| AdxlLogger.Logger.PollLoop | app/sensors/adxl.py:150-184 | The loop polls every clock reading unless stopped or halted; without a fault the cursor is Deadline and the round count Fires of the readings polled; the rows, snapshot and sender stay equal to the rounds read so far. |
| AdxlLogger.Logger.SampleLoop | app/sensors/adxl.py:150-184 | The new rows are the calibrated rounds read back to back from the bus, in order; the sender receives and buffers exactly them and nothing else in the sender changes; the snapshot is the last new row (unchanged with none); without a fault the cursor and the row count follow Deadline and Fires of the clock readings. |
| AdxlLogger.Logger.Run | app/sensors/adxl.py:92-188 | A faulting bring-up halts with no rows, no snapshot change and no samples sent; otherwise the offsets are the calibrations' fallbacks, the rows are the rounds read back to back after the calibrations, the sender received and buffered exactly those rows, even when a later round halts, and the snapshot is the last row; without a fault the number of rows is the number of fired rounds. |
| RealtimeSender.RStripSlash | app/realtime_sender.py:21 | The result is a prefix of the input without a trailing '/', and only slashes were removed. |
| RealtimeSender.RStripIdempotent | app/realtime_sender.py:21 | Stripping a stripped URL changes nothing. |
| RealtimeSender.IngestUrl | app/realtime_sender.py:54 | The posted URL is the configured URL up to its trailing run of slashes, followed by "/ingest", with no slash doubled before it. |
| RealtimeSender.IngestUrlIgnoresTrailingSlashes | app/realtime_sender.py:21 | However many slashes end the configured URL, the posted URL is the same. |
| RealtimeSender.FlushDue | app/realtime_sender.py:84-85 | A full batch is always due; with a positive batch size an empty buffer is never due. |
| RealtimeSender.ChunkSize | app/realtime_sender.py:87-89 | min(batch_size, len) samples for a non-negative batch size; for a negative one all but the newest -batch_size samples, or none. |
| RealtimeSender.SliceLength | app/realtime_sender.py:87-89 | The length of Python's `buf[:take]`, for any take: take itself within the list, the whole list beyond it, and a negative take counting from the end (0 when it reaches past the start). |
| RealtimeSender.FlushBounds | app/realtime_sender.py:84-89 | With a positive batch size an empty buffer is never flushed, and a flush takes min(batch_size, len) samples, between 1 and batch_size. |
| RealtimeSender.EmptyChunkNeedsBadBatchSize | app/realtime_sender.py:84-98 | A due flush takes an empty chunk only when the batch size is at most 0. |
| RealtimeSender.FlushTriggers | app/realtime_sender.py:84-85 | A full batch flushes at once; with a batch size above 1 a lone sample does not flush while less than the interval has elapsed, and flushes alone once it has. |
| RealtimeSender.BatchSamplesConcat | app/realtime_sender.py:86-99 | The samples in a sequence of posts are those of its parts, in order. |
| RealtimeSender.Rs485SamplesConcat | app/realtime_sender.py:63-74 | The records in a sequence of posts are those of its parts, in order. |
| RealtimeSender.Sender.constructor | app/realtime_sender.py:16-37 | The stored URL is the configured one with trailing slashes stripped, so every post goes to IngestUrl of the configured URL; empty buffers; last flush at the clock reading. |
| RealtimeSender.Sender.Stop | app/realtime_sender.py:39-40 | Clears running and changes nothing else. |
| RealtimeSender.Sender.PushRs485 | app/realtime_sender.py:42-45 | Appends the record at the end of the rs485 buffer and changes nothing else. |
| RealtimeSender.Sender.PushAdxlSample | app/realtime_sender.py:47-50 | Appends [z1, z2, z3] at the end of the accelerometer buffer and changes nothing else. |
| RealtimeSender.Sender.Rs485Posts | app/realtime_sender.py:68-78 | No post for an empty buffer; otherwise exactly one, an rs485 body posted to the ingest URL. |
| RealtimeSender.Sender.BatchPosts | app/realtime_sender.py:92-104 | Exactly one post, an adxl_batch body to the ingest URL, when the flush is due and the chunk is not empty; none otherwise. |
| RealtimeSender.Sender.SendRs485 | app/realtime_sender.py:63-78 | Only a non-empty buffer loses a record, exactly its oldest, which is posted as one "rs485" body. |
| RealtimeSender.Sender.FlushAdxl | app/realtime_sender.py:80-104 | Flushes exactly when the rule holds; the chunk is the oldest min(batch_size, len) samples, chunk followed by the new buffer is the old buffer, last flush becomes now; the body carries fs_hz 500 and chunk_start_us = first sample's z1; without a flush nothing changes; an empty due chunk kills the loop. |
| RealtimeSender.Sender.Step | app/realtime_sender.py:60-106 | One iteration: at most the oldest record leaves the rs485 buffer, the batch split follows the flush rule, and what left the buffers is exactly what the returned posts carry; the posts are at most two, the rs485 body first and then the batch, each with the sender's URL, key, timeout, device id and the iteration's timestamp. |
| RealtimeSender.Sender.Run | app/realtime_sender.py:60-106 | Over any number of iterations, the posted records and samples are exactly those taken from the buffers, in order, and form a prefix of everything pushed. |
| Compass.Reduce | app/sensors/rs485.py:22 | The reduced direction lies in [0, 360) and differs from the input by a whole number of turns. |
| Compass.CardinalIndex | app/sensors/rs485.py:26 | The index is always in 0..7. |
| Compass.DegToCardinal | app/sensors/rs485.py:20-27 | "-" exactly for a value `float()` rejects, otherwise the label of the direction's sector. |
| Compass.CardinalSector | app/sensors/rs485.py:25-27 | The index is k exactly when the reduced direction lies in the 45-degree sector centred on label k (north wrapping round 0). |
| Compass.ReduceInRange | app/sensors/rs485.py:22 | A direction already in [0, 360) is left unchanged. |
| Compass.ReduceTurns | app/sensors/rs485.py:22 | Adding any whole number of turns does not change the reduced direction. |
| Compass.CardinalPeriodic | app/sensors/rs485.py:22 | deg and deg + 360 have the same label. |
| Compass.CardinalIsLabel | app/sensors/rs485.py:25-27 | Every result is "-" or one of the eight labels. |
| Compass.CardinalExamples | app/sensors/rs485.py:25-27 | 0, 22, 22.4 → N; 22.5, 23, 45 → NE; 90 → E; 337, 337.4 → NW; 337.5, 338 → N; -45 → NW; a rejected value → "-". |
| Dashboard.Sample | app/ui/dashboard.py:273-295 | A failed read loses all four values together and gives the direction text "-"; otherwise each value is its register, the direction is the register modulo 360 (in [0, 360)) and its text is the label of the raw direction. |
| Dashboard.WindLabelOfReduced | app/ui/dashboard.py:294-295 | Labelling the direction after `% 360` gives the label of the raw register value. |
| Dashboard.RowOf | app/ui/dashboard.py:334-341 | The five cells are the reading's time, temperature, humidity, direction in degrees and wind speed, an empty cell for a missing value. |
| Dashboard.RowOfSample | app/ui/dashboard.py:273-341 | A failed read gives a row of empty value cells; otherwise the cells hold the registers, the direction reduced modulo 360. |
| Dashboard.Last | app/ui/dashboard.py:386-391 | The window has length min(len, n). |
| Dashboard.LastIsSuffix | app/ui/dashboard.py:386-391 | The window is a suffix of the list, so its newest entry is the list's newest. |
| Dashboard.LastSnoc | app/ui/dashboard.py:380-391 | Appending to a window and truncating again is the window of the longer history. |
| Dashboard.Roll | app/ui/dashboard.py:328-332 | The new row is last; the table grows by one below capacity and keeps its size when full, and the rows before the new one are the newest rows of the old table. |
| Dashboard.RollIsWindow | app/ui/dashboard.py:328-332 | On a table of at most 600 rows, dropping row 0 when full and appending keeps exactly the latest 600 rows. |
| Dashboard.LastColumnAt | app/ui/dashboard.py:380-391 | Each entry of a truncated series is the field of a reading counted from the end of the history. |
| Dashboard.Board.constructor | app/ui/dashboard.py:47-51 | Empty series, empty table, no readings. |
| Dashboard.Board.AppendPoint | app/ui/dashboard.py:379-391 | Every series gets its new point at the end and keeps its last MAX_SAMPLES points. |
| Dashboard.Board.ReadAll | app/ui/dashboard.py:271-391 | One reading is added to the history and pushed to the sender's rs485 buffer, and nothing else in the sender changes; the table and series stay the latest windows of the history. |
| Dashboard.Board.RedrawSeries | app/ui/dashboard.py:395-407 | The plotted temperature, humidity and wind-speed series are filtered. |
| Dashboard.WindowsAfter | app/ui/dashboard.py:379-391 | Each column window after a reading is the previous window with the new field appended and truncated. |
| Dashboard.SeriesAligned | app/ui/dashboard.py:380-391 | The five series always have equal length, at most MAX_SAMPLES. |
| Dashboard.SeriesAreLatest | app/ui/dashboard.py:380-391 | Point i of every series comes from the same reading, the series hold the most recent readings in order, and the newest is last. |
| Dashboard.TableIsLatest | app/ui/dashboard.py:328-332 | The table never exceeds 600 rows and holds the most recent readings' rows in order. |
| Dashboard.Present | app/ui/dashboard.py:398-401 | Every listed position is below the bound and holds a value. |
| Dashboard.PresentIncreasing | app/ui/dashboard.py:398-401 | The listed positions are strictly increasing, so order is preserved. |
| Dashboard.PresentComplete | app/ui/dashboard.py:398-401 | No position holding a value is skipped. |
| Dashboard.Filtered | app/ui/dashboard.py:396-402 | The loop returns exactly the times and values at the present positions within the zipped length. |
| Dashboard.Kept | app/ui/dashboard.py:396-402 | The kept times and values have equal length, at most that of either input. |
| Dashboard.KeptLengths | app/ui/dashboard.py:396-402 | The two outputs have equal length, no greater than the shorter input. |
| Dashboard.KeptExactlyPresent | app/ui/dashboard.py:396-402 | Every present value comes through, paired with its own time. |
| Dashboard.KeptAllMissing | app/ui/dashboard.py:399-400 | A series missing everywhere plots nothing. |

## Left out

- Real bus and Modbus I/O (smbus2, minimalmodbus) are replaced by the `respond`
  oracle for I2C and by the `Raw` outcome of the four register reads. The Modbus
  slave addressing and function codes are not modelled.
- `time.sleep` calls in the helpers, the calibration and the loops are left out.
  They only slow the loops down.
- Threads, locks and the `daemon` flag are left out. Each lock-guarded block is one
  atomic step of a sequential model, and `stop()` is a separate call between steps.
- `time.time`, `time.time_ns`, `datetime.now` and `datetime.utcnow` become
  parameters. `Sender.Step` takes one UTC timestamp for both bodies, where the
  source reads the clock once per body. The dashboard's `datetime` and its
  formatted string are one `moment` string.
- HTTP posting (`requests.Session.post`) is left out. Posts are returned as
  `Request` values. Their outcome cannot change the sender's state.
- Exceptions other than the modelled ones are left out: an OSError from the bus,
  the crash on an empty chunk, and an input `float()` rejects. This covers, for
  example, a `push_rs485` or `push_adxl_sample` that raises.
- Logger.Setup: opening the CSV file and its header row (I/O) are not modelled.
  The rows are a sequence field.
- Float scaling `raw / 10.0` in `read_all` is left out. Temperature, humidity and
  wind speed stay raw register values in tenths. The `.1f` formatting of cells and
  tiles is left out.
- RealtimeSender.FlushDue: the elapsed time `now - last_flush` is compared with the flush
  interval on exact reals, so floating-point rounding of the subtraction at the boundary
  (app/realtime_sender.py:85) is not modelled.
- Compass.DegToCardinal works on exact reals, so floating-point rounding of `% 360.0`
  and `+ 22.5` is not modelled, and neither are NaN and ±inf: for those the `int(...)`
  at app/sensors/rs485.py:26, outside the `try`, raises ValueError instead of
  returning "-". Its only caller passes an integer register value,
  for which the arithmetic is exact.
- All Qt widgets, styling, tiles, message boxes, the accelerometer tiles fed by
  `get_latest`, CSV and Excel export (pandas), attaching and detaching the sender,
  and `app/ui/plots.py` (matplotlib) are left out. The dashboard's sender is fixed
  when it is built.
- `app/main.py` and `rs485_adxl345.py` are entry points only and are not part of
  this model.
- Logger.Run: without a fault its guarantees hold for the clock readings given.
  The source loops until `stop()`, which is modelled by a finite clock sequence.
