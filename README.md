# Emotion-monitoring session and user table, modelled in Dafny

This project models the two stateful parts of the persona backend.

The first is `EmotionMonitorService` (backend/agent/emotion_monitor.py). It is a
two-state session (idle or monitoring) with a start time and a duration. It
keeps a rolling buffer of at most 10 `(label, score)` samples. One iteration of
the capture loop buffers the top emotion of the first detected face and closes
the session once `now - start >= duration`. `get_dominant_emotion` reduces the
buffer to a verdict: it sums the scores per label and picks the first label
with the largest sum.

The second is the in-memory user table of backend/app.py. The model keeps its
create, list, get, update and delete handlers and drops the Flask layer.

Files: `wrappers.dfy` (an `Option` type), `emotion_monitor.dfy` (module
`EmotionMonitor`), `users.dfy` (module `Users`).

How the outside world is modelled:
- The clock is an explicit `now: real` parameter: `now` is the `time.time()` reading of line 58 of backend/agent/emotion_monitor.py, the loop's only clock read.
- The camera and the FER classifier become a `Capture` value:
  - `NoFrame`: `cap.read()` failed. The loop `continue`s, so there is no timeout check.
  - `Frame(None)`: no face was found. The timeout check still runs.
  - `Frame(Some(map))`: the first face's emotion map, in iteration order.
- An empty emotion map makes Python's `max` raise `ValueError`, which ends the
  capture loop. `AfterTick` returns `None` for it, and `Tick` returns
  `ok = false` and leaves the state unchanged.
- `get_dominant_emotion` with a zero duration and a non-empty buffer raises
  `ZeroDivisionError`. It is modelled as the `ZeroDivision` outcome.
- Scores, times and durations are `real`.
- Request bodies in app.py are parsed JSON objects (`map<string, Json>`), or `None`
  when there is no body. Responses are a status code plus the JSON body that
  `jsonify` would send.

On three points the model follows the code as written:
- A missing camera frame skips the auto-stop check.
- Python's ties go to the first entry, both in the per-frame arg-max and in the verdict.
- `start_monitoring` accepts any duration, zero and negative included.

## Model

| member | source | states |
|---|---|---|
| `EmotionMonitor.MaxByScore` | backend/agent/emotion_monitor.py:52 | Python `max` by score: returns an index whose score no item exceeds, and every earlier item scores strictly less, so ties go to the first item |
| `EmotionMonitor.Append` | backend/agent/emotion_monitor.py:53 | appending to the `maxlen=10` deque gives the newest `min(n+1, 10)` samples of buffer + [x]; when full, the oldest sample is dropped and the rest keep their order |
| `EmotionMonitor.AppendAllKeepsNewest` | backend/agent/emotion_monitor.py:30 | after any number of appends the buffer is exactly the newest 10 of all samples, in arrival order (FIFO eviction) |
| `EmotionMonitor.AfterTick` | backend/agent/emotion_monitor.py:43-59 | one loop iteration: no frame or idle leaves the session unchanged; start and duration never change; a tick never turns monitoring on; no face leaves the buffer alone; a face appends its first maximal pair; on a frame the session stays open iff `now - start < duration`; only an empty emotion map raises |
| `EmotionMonitor.AfterTicks` | backend/agent/emotion_monitor.py:43-59 | the capture loop over a run of inputs, ending at the first iteration that raises; no run moves the start time or the duration, or reopens a closed session |
| `EmotionMonitor.AfterTicksKeepsCapacity` | backend/agent/emotion_monitor.py:43-59 | over any run of the capture loop the buffer never exceeds 10 samples |
| `EmotionMonitor.StoppedSessionIgnoresTicks` | backend/agent/emotion_monitor.py:48-59 | a session that is not monitoring is unchanged by any run of the loop: nothing is appended until the next start |
| `EmotionMonitor.TimeoutIsFinal` | backend/agent/emotion_monitor.py:58-59 | a tick on a frame once the duration has elapsed closes the session, and later ticks leave it unchanged |
| `EmotionMonitor.LabelsMembership` | backend/agent/emotion_monitor.py:81-83 | a label is a key of the per-label dictionary iff some buffered sample has it |
| `EmotionMonitor.LabelsDistinct` | backend/agent/emotion_monitor.py:81-83 | the dictionary's keys, in first-seen order, are distinct |
| `EmotionMonitor.LabelSumUnseen` | backend/agent/emotion_monitor.py:83 | a label not yet seen has sum 0, the default of `emotion_counts.get` |
| `EmotionMonitor.DominantEmotion` | backend/agent/emotion_monitor.py:77-90 | the result is "no data" iff the buffer is empty; it is a division-by-zero failure iff the buffer is non-empty and the duration is 0 |
| `EmotionMonitor.DominantEmotionIsFirstMaximal` | backend/agent/emotion_monitor.py:81-90 | on a non-empty buffer: the verdict's label occurs in the buffer; no label has a larger sum; any label with an equal sum is first seen no earlier; score = sum / buffer length; confidence = buffer length / duration |
| `EmotionMonitor.ExampleVerdict` | backend/agent/emotion_monitor.py:81-90 | [(happy, 0.9), (happy, 0.8), (sad, 0.95)] over 2 seconds gives happy, 1.7/3 and 1.5 |
| `EmotionMonitor.EmotionMonitorService.constructor` | backend/agent/emotion_monitor.py:28-32 | starts idle, with start and duration 0 and an empty buffer |
| `EmotionMonitor.EmotionMonitorService.StartMonitoring` | backend/agent/emotion_monitor.py:70-75 | returns true and leaves an open session with an empty buffer, start = now and the given duration, whatever ran before |
| `EmotionMonitor.EmotionMonitorService.Tick` | backend/agent/emotion_monitor.py:44-59 | the fields change exactly as `AfterTick` says; `ok` is false iff the iteration raised, and then nothing changes; the buffer stays within capacity |
| `EmotionMonitor.EmotionMonitorService.GetDominantEmotion` | backend/agent/emotion_monitor.py:77-90 | the accumulation loop returns `DominantEmotion` of the current state and changes nothing |
| `Users.FindUser` | backend/app.py:34 | the index of the first record whose `id` equals the given id (Python `==`: int, float or bool), or none when no record matches |
| `Users.Without` | backend/app.py:64 | the filtered list holds exactly the records that do not match; it is the whole list when none match and shorter when one does |
| `Users.WithoutConcat` | backend/app.py:64 | the filter distributes over concatenation, so the surviving records keep their original order |
| `Users.IdReusedAfterDelete` | backend/app.py:24 | with records 1 and 2, deleting 1 and then creating a user assigns id 2, which the remaining record already holds |
| `Users.UserStore.constructor` | backend/app.py:7-9 | the table starts empty |
| `Users.UserStore.GetUsers` | backend/app.py:13-14 | 200 with a `users` array holding every record, in order |
| `Users.UserStore.CreateUser` | backend/app.py:18-27 | no body or a missing or falsy `name` or `email` gives 400 and an unchanged table; otherwise 201 and exactly one record appended, the body with `id = old length + 1`, with the earlier records unchanged |
| `Users.UserStore.GetUser` | backend/app.py:33-37 | 200 iff some record matches, with the first matching record as the body; otherwise 404 "User not found" |
| `Users.UserStore.UpdateUser` | backend/app.py:41-52 | no match gives 404, and then an empty body gives 400, both with the table unchanged; otherwise the first match becomes itself merged with the body (body fields win, `id` included), every other record is untouched, and 200 |
| `Users.UserStore.DeleteUser` | backend/app.py:58-65 | no match gives 404 with the table unchanged; otherwise the table becomes the filtered list (no record with that id is left, the others keep their order) and 200 |

## Left out

- Camera, FER/MTCNN classifier, OpenCV window, overlay text and `waitKey`: device I/O and foreign libraries. They are replaced by the `Capture` input (backend/agent/emotion_monitor.py:26-27, 34-35, 41, 54-56, 61-68).
- `is_running`, the `q` key and `stop()`: these only end the loop and release the device (backend/agent/emotion_monitor.py:66-68, 92-95).
- The singleton `__new__` / `_initialized` machinery: the model has one explicitly constructed object (backend/agent/emotion_monitor.py:14-24).
- The Flask routes for the monitor (backend/agent/emotion_monitor.py:100-134): HTTP plumbing. The result route sends 404 for the no-data outcome, and the 500 path covers the division-by-zero outcome.
- Concurrency between the capture loop and the request threads: the code has no locking, and the model is sequential.
- The follow-up threshold table: neither emotion_monitor.py nor app.py contains it, so it is outside this model.
- Floating-point rounding: all scores and times are exact reals.
- Request bodies that are JSON but not objects (a list, a string, a number), and their `AttributeError`/500 paths in app.py. `dict.update` with a list of pairs is not modelled either.
- In-place aliasing of the record dictionaries in app.py: records are values in the model. Nothing else holds a reference to them.
- backend/cv_testing.py (a standalone OpenCV/MediaPipe demo) and backend/agent/translation.py (a single call to a remote language-model API): neither is part of the core.
