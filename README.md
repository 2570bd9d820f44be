# AFC IPM test tasks — a Dafny model

This project models the application-level logic of `src/AFC_IPM.c`, the
firmware entry file of the AFC management controller (an IPMB node that talks
to the MCH shelf manager over I2C). That file holds two FreeRTOS test tasks and
the LED helper they share:

- **IPMB test task** (`IPMBTestTask`): takes each IPMI message from the IPMB
  receive queue. A Get Device ID request (network function App `0x06`,
  command `0x01`) is answered through `ipmb_send` with network function
  `0x07` (request + 1, the even-request/odd-response convention of section 5.1
  of the IPMI v2.0 specification), the request's command and sequence number,
  and the fixed 12-byte device description (completion code `0x00` first). A
  successful send toggles the green LED, a failed one the red LED, and there is
  no retry. Every other message is copied into the static `diff_rx_msg`, and
  nothing is sent.
- **I2C slave test task** (`prvSlaveTestTask`): after each frame received into
  its 32-byte buffer, if byte 2 is 32 it increments the static 8-bit counter
  `mch_retries`; when the counter reaches 3 it toggles the red LED and resets
  to 0.
- **`prvToggleLED`**: reads one LED's pin level and writes back its negation.

Modules:

- `I2c` (`i2c.dfy`): the `byte` type (`uint8_t`) and `MaxMsgLength`
  (`i2cMAX_MSG_LENGTH`, 32).
- `Leds` (`leds.dfy`): LED ids, the LED state as a map from id to "lit",
  the pure `Toggled` and its iterates, and the `LedBank` class whose `Toggle`
  method is the read-modify-write of `prvToggleLED`.
- `SlaveTest` (`slave_test.dfy`): the counter rule `RetryStep` as a function,
  and the `SlaveTestTask` class whose field `mchRetries` is the static counter;
  `OnFrame` is one pass of the `for(;;)` loop, `Run` a finite prefix of it.
- `IpmbTest` (`ipmb_test.dfy`): the dispatch rule `Dispatch` as a function,
  the reply `DeviceIdReply`, the functional run `DispatchRun` with its lemmas,
  and the `IpmbTestTask` class whose fields are the statics `rx_msg` and
  `diff_rx_msg`; `Receive` is one loop pass, `Run` a finite prefix of the loop.
  The messages handed to `ipmb_send` are returned as out-parameters (the
  task's only output besides the LEDs).

The two task classes hold a reference to one shared `LedBank`, as both tasks
drive LEDs of the same board: the IPMB task toggles green and red, the slave
task only red.

External effects are inputs: the frame that `xI2CSlaveTransfer` fills in is the
`RxBuffer` argument of `OnFrame`; the message `xQueueReceive` delivers is the
`rx` argument of `Receive`; the result of `ipmb_send` is the `status`
argument (`SendSuccess` for `ipmb_err_success`, `SendFailure` for any other
code), consulted only when a reply is sent.

`IPMBTestTask` has a single hard-wired test for Get Device ID
(`src/AFC_IPM.c:176`) and no table of command handlers; any other message
overwrites `diff_rx_msg` (`src/AFC_IPM.c:184`). The counter task is compiled
(an undefined `DEBUG_I2C` reads as 0 in the `#if` at `src/AFC_IPM.c:127`),
although `main` does not create it, because task creation sits under
`#ifdef DEBUG_I2C` (`src/AFC_IPM.c:74`); the model describes what the task
does once it runs.

## Model

| member | source | states |
|---|---|---|
| `Leds.Toggled` | src/AFC_IPM.c:198-225 | toggling an LED negates exactly that LED; the set of LEDs and every other LED's level are unchanged |
| `Leds.ToggleTwice` | src/AFC_IPM.c:220-224 | toggling the same LED twice restores the original LED state |
| `Leds.ToggledTimes` | src/AFC_IPM.c:220-224 | toggling one LED any number of times never touches another LED |
| `Leds.ToggledTimesParity` | src/AFC_IPM.c:220-224 | after n toggles of one LED the state is the original one if n is even and a single toggle of it if n is odd |
| `Leds.ApplyToggles` | src/AFC_IPM.c:198-225 | a sequence of toggles keeps every LED defined |
| `Leds.ApplyTogglesAppend` | src/AFC_IPM.c:173-186 | toggling two sequences one after the other equals toggling their concatenation |
| `Leds.LedBank.constructor` | src/AFC_IPM.c:236-238 | the three LED pins exist and start at the given levels |
| `Leds.LedBank.Toggle` | src/AFC_IPM.c:198-225 | the read-modify-write of one pin leaves the LED state equal to `Toggled` of the old state |
| `SlaveTest.RetryStep` | src/AFC_IPM.c:140-146 | a frame whose byte 2 is not 32 changes nothing and toggles nothing; from a counter in 0..2, a retry frame advances it modulo 3, the result stays in 0..2, and the red LED toggles exactly when the counter was 2; a toggle always leaves the counter at 0 |
| `SlaveTest.RetryStepCounts` | src/AFC_IPM.c:141-145 | measured by the number of retries received so far, one pass keeps the counter equal to that number modulo 3 and adds a red toggle exactly when that number crosses a multiple of 3 |
| `SlaveTest.SlaveTestTask.constructor` | src/AFC_IPM.c:132 | the static counter starts at 0 |
| `SlaveTest.SlaveTestTask.OnFrame` | src/AFC_IPM.c:139-146 | one loop pass updates the counter as `RetryStep` does (with 8-bit wrap written out) and toggles the red LED only when `RetryStep` says so; the counter stays in 0..2 between passes |
| `SlaveTest.SlaveTestTask.Run` | src/AFC_IPM.c:133-147 | after any sequence of frames the counter is (initial counter + retry frames) mod 3 and the red LED has been toggled (initial counter + retry frames) div 3 times, the other LEDs untouched |
| `IpmbTest.IsGetDeviceId` | src/AFC_IPM.c:176 | the message test of the task (command 1 and network function 0x06); every message it selects has an even, request network function |
| `SlaveTest.IsRetry` | src/AFC_IPM.c:140 | the frame test of the slave task: byte 2 of the 32-byte buffer equals 32 |
| `IpmbTest.DispatchRun` | src/AFC_IPM.c:173-186 | the task loop as a function over a sequence of messages: it sends at most one message per received message and toggles exactly one LED per message sent |
| `IpmbTest.DeviceIdReply` | src/AFC_IPM.c:157-177 | the reply to a Get Device ID request is its IPMI response (network function + 1, odd, here 0x07; same command and sequence) carrying 12 payload bytes that start with completion code 0x00 |
| `IpmbTest.Dispatch` | src/AFC_IPM.c:175-185 | a reply is sent if and only if the message is command 1 with network function 0x06; the reply is the response to the request with the device-id payload; the green LED toggles exactly on a successful send, the red exactly on a failed one, and nothing toggles when nothing is sent; `diff_rx_msg` becomes the message when no reply is sent and is kept otherwise |
| `IpmbTest.Requests` | src/AFC_IPM.c:176 | every message selected for a reply is a Get Device ID request |
| `IpmbTest.DispatchRunReplies` | src/AFC_IPM.c:173-186 | over any sequence of messages, the k-th message sent is the response, with the device-id payload, to the k-th Get Device ID request, one per request and no others; the k-th LED toggle is green if that request's send succeeded and red otherwise |
| `IpmbTest.LastOtherIsDiff` | src/AFC_IPM.c:183-185 | after any sequence of messages, `diff_rx_msg` holds the last message that was not a Get Device ID request, or its earlier value if there was none |
| `IpmbTest.IpmbTestTask.constructor` | src/AFC_IPM.c:155-156 | the static message records start zeroed |
| `IpmbTest.IpmbTestTask.Receive` | src/AFC_IPM.c:175-185 | one loop pass stores the message in `rx_msg` and sends, toggles and updates `diff_rx_msg` exactly as `Dispatch` says |
| `IpmbTest.IpmbTestTask.Run` | src/AFC_IPM.c:173-186 | a finite prefix of the loop sends the messages of `DispatchRun`, applies its LED toggles in order, leaves `rx_msg` at the last message received (unchanged after an empty run) and `diff_rx_msg` at the last unanswered message |

## Left out

- The I2C driver itself (the interrupt-driven transaction state machine, the
  mutex and semaphore handoff between task and interrupt, the per-channel
  configuration table): `inc/i2c.h` only declares it, and its source is not
  part of this model. The bus status codes of `inc/i2c.h` are not decoded.
- `ipmb.h` and the IPMB layer are not part of this model: the IPMI message is
  modelled with the fields the task reads (network function, command,
  sequence number; the field `seq` is named `seqNum` because `seq` is a Dafny
  keyword) and an opaque payload.
- `main` (task creation, scheduler start, idle spin), `LEDTask` (a periodic
  blue blink, timing only), `prvHardwareInit`, `vApplicationStackOverflowHook`
  and `vConfigureTimerForRunTimeStats`: RTOS bootstrap and register I/O.
- `prvMasterTestTask`: not compiled under the current flags, and it is a
  temperature-sensor read.
- Queue creation and reception, `ipmb_register_rxqueue`, `ipmb_init`,
  `ipmb_send` and `xI2CSlaveTransfer`: foreign calls whose results are inputs
  to the model. The slave transfer's actual call does not match its declared
  prototype, so the received frame is simply the whole 32-byte buffer.
- The `for(;;)` loops never end; `Run` in each task class models any finite
  prefix of them.
- The `continue` after a failed send has no observable effect (it is the last
  statement of the loop body) and is not modelled separately.
- GPIO ports and pins: an LED is only its lit/unlit level.
- Concurrency between the tasks: `LEDTask` toggles the blue LED while the
  other tasks run, and when the slave task is started it and `IPMBTestTask`
  run at different priorities and both toggle red through the unlocked
  read-then-write of `prvToggleLED`, so a toggle preempted between its read
  and its write can be lost. The model runs each task in isolation.
- SlaveTest.SlaveTestTask.Run: its LED postconditions (red toggled a given
  number of times, the other LEDs untouched) describe this task's own toggles
  only, not what other tasks toggle meanwhile or a toggle lost to preemption.
- IpmbTest.IpmbTestTask.Run: its LED postcondition (`ApplyToggles` of the old
  state) describes this task's own toggles only, not the blue blink of
  `LEDTask` or a red toggle lost to preemption.
