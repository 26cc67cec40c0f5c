# amqpx core in Dafny

A model of the two pieces of sequential logic inside the `amqpx` resilient AMQP
client:

- **`Amqpx` (amqpd.go)**, the channel holder. `New` builds an instance and
  `initChannel` replaces its channel: it re-initialises the process-wide
  connection when that is absent or closed, closes a previous channel that is
  still open, opens a new channel and stores it only when the open succeeds.
  The pass-through operations (`ExchangeDeclare`, `QueueDeclare`, `QueueBind`,
  `Publish`, `Consume`, `Cancel`, `Close`) are entries in the instance's call
  log, each with the fixed flag arguments it always sends.
- **`AmqpxConsumer` (consumer.go)**, the multi-queue consumer. `AddFunc` stores
  a binding under a key made of the consumer name, a dash and the next value of
  the global `consumerSeq` counter. `Start` and `Stop` drive the `running` flag.
  `Start` launches one job per registered key. `consume` turns every delivery
  into exactly one acknowledgement or rejection. `runWithRecovery` turns a
  handler panic into a nil error. `Stop` runs the fixed shutdown order:
  cancel every key, wait for the jobs, close, and then signal completion.

Files:

- `options.dfy`: module `Options`, an optional value for broker replies.
- `keys.dfy`: module `ConsumerKeys`. It holds the 64-bit counter with wrap-around,
  the decimal rendering and its inverse, and the key scheme with its
  injectivity lemmas.
- `amqpd.dfy`: module `Amqpd`. It has classes for the connection, the channel,
  the process-wide `Connection` variable (`Transport`) and `Amqpx`, plus the `Call` log
  and the fixed-flag predicate.
- `consumer.dfy`: module `Consumer`. It has the `AmqpxConsumer` class, the
  disposition function and its counting lemmas, and the shutdown trace and its
  ordering lemma.

The broker is abstract. Whether `Init` succeeds, whether `Connection.Channel()`
succeeds, and every broker reply (a delivery stream or an error, a queue
description, an error flag) are parameters of the operations. A handler is a
function from a message body to an `Outcome`: `Ok` (nil), `Err` (an error) or
`Panic`.

`Amqpx.Valid()` is the resource invariant: no channel the instance opened is
open except its current channel (`OpenChannels` has at most one element). Every
operation preserves it. Every pass-through operation logs exactly one call with
the fixed flag arguments (`FixedFlags`), and `RunLogFixed` shows that every call
a consumer job makes carries them too.

Three points of the code that shape the model:

- `Cancel` sends `noWait = false` (amqpd.go:78), so it waits for the broker's
  confirmation.
- A recovered handler panic makes `runWithRecovery` return nil (consumer.go:114-124),
  so the delivery is acknowledged, not rejected (consumer.go:103-108).
- The `running` flag is a plain boolean. The model has no separate "stopping" state.

## Model

| member | source | states |
|---|---|---|
| ConsumerKeys.Increment | consumer.go:49 | the new counter value is the old one plus one, modulo 2^64; below the maximum it is strictly larger |
| ConsumerKeys.Decimal | consumer.go:49 | the rendering of the counter is a non-empty string of decimal digits without a superfluous leading zero, and it contains no dash |
| ConsumerKeys.DecimalRoundTrip | consumer.go:49 | reading a rendered counter value back gives that value |
| ConsumerKeys.DecimalSnoc | consumer.go:49 | the rendering of `10 p + v` for a positive `p` and a digit `v` is the rendering of `p` followed by that digit |
| ConsumerKeys.ParseRoundTrip | consumer.go:49 | every canonical digit string is the rendering of the number it denotes, so rendering is a bijection onto canonical strings |
| ConsumerKeys.DecimalInjective | consumer.go:49 | two counter values have the same rendering exactly when they are equal |
| ConsumerKeys.LastField | consumer.go:49-51 | the text after the last dash is a dash-free suffix of the key, preceded by a dash whenever it is not the whole key |
| ConsumerKeys.LastFieldAfterDash | consumer.go:49-51 | for `name + "-" + d` with a dash-free `d`, the text after the last dash is exactly `d`, whatever dashes `name` contains |
| ConsumerKeys.KeyCounter | consumer.go:49-51 | the text after the last dash of a key is the decimal counter value, and the counter read back from the key is that value |
| ConsumerKeys.KeyInjective | consumer.go:49-51 | two keys are equal if and only if their names and their counter values are equal |
| ConsumerKeys.SuccessiveKeysDistinct | consumer.go:49-51 | keys issued with successive counter values are pairwise distinct, even when every call uses the same name |
| ConsumerKeys.AddFresh | consumer.go:49-54 | when every stored key carries a counter value of at most c and c is below the maximum, the key for c + 1 is not yet stored, and storing it keeps every key at most c + 1 |
| Amqpd.Amqpx.OpenChannels | amqpd.go:36-40 | an instance has at most one open channel among those it opened, and that channel is its current one |
| Amqpd.Amqpx.New | amqpd.go:17-26 | a live shared connection is left as it is; no instance when the connection cannot be re-established or the channel cannot be opened; otherwise a fresh instance holding a fresh open channel (its only channel), with the redial task started |
| Amqpd.Amqpx.InitChannel | amqpd.go:29-46 | `Init` runs only when the shared connection is absent or closed, and a live shared connection is left as it is; a failed `Init` returns an error before any channel is touched; a still-open channel is closed before the new channel is requested (the log shows the order); a failed open returns an error and keeps the old field (now closed, or nil); a successful open stores the fresh open channel and returns no error; at most one opened channel stays open |
| Amqpd.Amqpx.Dispose | consumer.go:105-108 | an acknowledgement or rejection of a delivery is appended to the log and the channel invariant is kept |
| Amqpd.Amqpx.Cancel | amqpd.go:77-79 | logs a cancel for the consumer on the current channel with `noWait = false` and returns the broker's reply |
| Amqpd.Amqpx.Close | amqpd.go:82-85 | while the redial task is alive: stops it, closes the current channel, logs the close, returns the broker's reply; once the task has stopped, the send on `stop` never completes (`Blocked`) and nothing changes |
| Amqpd.Amqpx.ExchangeDeclare | amqpd.go:88-90 | logs a declaration on the current channel that is durable, not auto-deleted, not internal and waiting |
| Amqpd.Amqpx.Publish | amqpd.go:93-96 | logs a publish with `mandatory = false`, `immediate = false`, content type "text/plain" and the body unchanged |
| Amqpd.Amqpx.QueueDeclare | amqpd.go:99-101 | logs a declaration that is durable, not auto-deleted, not exclusive and waiting, and passes the broker's queue description or error through |
| Amqpd.Amqpx.QueueBind | amqpd.go:104-106 | logs a binding of the queue to the exchange with the routing key, waiting for the broker |
| Amqpd.Amqpx.Consume | amqpd.go:109-111 | logs a consume request with `autoAck`, `exclusive`, `noLocal` and `noWait` all false, and passes the stream or error through |
| Consumer.RunWithRecovery | consumer.go:114-124 | the result is an error exactly when the handler returned one; a panic yields no error |
| Consumer.Dispositions | consumer.go:102-110 | one call per delivery |
| Consumer.DispositionAt | consumer.go:102-110 | the call for the i-th delivery of the stream is `Reject(requeue = true)` of its tag when the handler returned an error, and `Ack(multiple = false)` of its tag otherwise (a recovered panic included) |
| Consumer.DispositionsFixed | consumer.go:105-108 | no disposition is a multiple acknowledgement, and every rejection requeues |
| Consumer.RunLogFixed | consumer.go:80-111 | every call a job makes over any sequence of broker replies carries the fixed flags: manual-acknowledgement consume requests, single acknowledgements, requeueing rejections |
| Consumer.DispositionCounts | consumer.go:102-110 | the number of rejections equals the number of failed handler runs, and every other delivery is acknowledged |
| Consumer.UniformHandler | consumer.go:102-110 | a handler that always fails gets every delivery rejected and none acknowledged; a handler that never fails gets every delivery acknowledged and none rejected |
| Consumer.LaunchCount | consumer.go:68-75 | a launch holding one job per registered key has exactly as many jobs as there are registered keys |
| Consumer.ShutdownOrder | consumer.go:150-157 | in the shutdown trace every cancel comes before the wait, and the wait before the close; completion is signalled last, only if the close happened, after every key was cancelled |
| Consumer.AmqpxConsumer.New | consumer.go:31-42 | no consumer when the client cannot be created; otherwise an empty, stopped consumer over a fresh client |
| Consumer.AmqpxConsumer.AddFunc | consumer.go:45-56 | the counter rises by one (modulo 2^64); the binding is stored under `name + "-" + decimal(new counter)` and every other entry is unchanged; unless the counter wraps, the key is new and the registry grows by exactly one |
| Consumer.AmqpxConsumer.Start | consumer.go:59-77 | when already running nothing changes and no job is launched; otherwise `running` becomes true and one job is launched per registered key, each paired with that key's entry |
| Consumer.AmqpxConsumer.Consume | consumer.go:97-111 | a failed consume request returns an error after logging only the request; otherwise every delivery gets its disposition in stream order and no error is returned |
| Consumer.AmqpxConsumer.Drain | consumer.go:102-109 | the delivery loop appends exactly the dispositions of the stream to the log |
| Consumer.AmqpxConsumer.Run | consumer.go:80-94 | a running job issues one consume round per broker reply, retrying after errors and after ended streams; a stopped job issues none |
| Consumer.AmqpxConsumer.Stop | consumer.go:138-159 | `running` becomes false whatever it was; every registered key is cancelled exactly once; then the jobs are waited for; then the client is closed; then completion is signalled. When the client's redial task was already stopped, as on a second `Stop`, the close blocks, the channel is left as it was and completion is never signalled |

## Left out

- The `redial` task (amqpd.go:49-74) is left out. It waits for the stop signal or a close notification and retries every 10 s, which is concurrency and timing. One replacement step is `InitChannel`. The model records only whether the task is alive (`redialing`).
- Goroutines, the `sync.WaitGroup`, the mutex and the `context` are left out. `Start` records the jobs it launches instead of running them. `Stop` runs its shutdown task to completion and reports the steps. Its `WaitStep` stands for the wait on the jobs, and its `DoneStep` for cancelling the returned context.
- Consumer.AmqpxConsumer.Run: the 15 s sleeps are left out. `Stop` can clear `running` concurrently, but the model does not capture that. The rounds are bounded by the broker replies supplied, and within one call the flag does not change. So a running job consumes once per reply.
- The race between `AddFunc` and the shutdown goroutine of `Stop` is left out: that goroutine ranges over `entries` without holding `runningMu` (consumer.go:150-151), while `AddFunc` writes `entries` under it (consumer.go:46-54). The model runs them one after the other. The unsynchronised read of `running` in `run` (consumer.go:82) is left out too; `AddFunc` and `Start` both hold `runningMu`, so registration after `Start` is modelled, and the new binding gets no job until the next `Start`.
- The amqp091-go library is left out: connections, channels, deliveries, `NotifyClose`. `Init` and the global connection setup are not part of this model either. Their success is a parameter. A failed `Init` is assumed to leave the `Connection` variable unchanged. Channels closed by the broker are not modelled as a separate operation. Such a closure can only help the one-open-channel invariant.
- The AMQP 0-9-1 meaning of acknowledgement, rejection, cancellation and declaration is left out. So is any error the broker returns for `Ack`, `Reject` (which `consume` ignores), `Cancel` or `Close` (which `Stop` ignores). `Stop` passes a no-error reply for them.
- The `amqp.Table` arguments are left out. They are always nil.
- Logging, the 64 KiB stack capture and error-message formatting are left out. Errors are flags or absent values.
- Handler business logic is left out. A handler is a pure function from the body to an outcome, so a handler with its own state or side effects is not captured.
- ConsumerKeys.AddFresh: freshness holds only while the counter has not wrapped. That takes 2^64 registrations. The wrap itself is modelled in `Increment`.
