# Wonderphone payphone controller, modelled in Dafny

The Wonderphone is a converted payphone driven by a Raspberry Pi. One Python
script, `code/katies_payphone.py`, does all the work:

- it reads the keypad through an MCP3008 analogue-to-digital converter over
  bit-banged SPI (`readadc`);
- it turns the sample into a key through a table of voltage bands
  (`button_handler`);
- it walks a small menu (main menu, record menu, playback menu) kept in
  three globals: `MENU`, `PLAYBACK_INDEX` and `IS_FIRST_PLAYBACK`
  (`navigate_menu`, `restart`).

This project models those parts and proves what they guarantee.

| file | module | what it holds |
|---|---|---|
| `wrappers.dfy` | `Wrappers` | `Option`, for a sample that names no key |
| `adc.dfy` | `Adc` | `readadc` as a method over an input sequence of data-in levels, producing a trace of bus events; the shape of that trace; the value it returns |
| `keypad.dfy` | `Keypad` | the band table, `Decode`, and disjointness and gap lemmas |
| `menu.dfy` | `Menu` | the menu as a value (`Session`), the transition table `Transition`, runs of keys, and replays of callbacks |
| `payphone.dfy` | `Payphone` | class `Phone`, whose fields are the three globals; `Restart`, `NavigateMenu` (the `while unresolved_input` loop, branch for branch) and `ButtonHandler` (the twelve independent `if` tests) |

Modelling choices:

- GPIO is abstracted. `GPIO.output` becomes a `Drive(pin, level)` event in
  the returned trace and `GPIO.input` becomes a `SampleDataIn` event. The
  levels read are a parameter `dataIn` of 12 booleans, one per sample, in
  order.
- Python integers do not overflow. The command word is kept as a `bv16`,
  and `ShiftedCommand` shows it stays below `0x2000`, so no bit is lost. The
  accumulator is an unbounded `int`.
- Keys are one-character strings in the source, so they are `char` here,
  and `MENU` is a `seq<char>`.
- Each callback (`button_handler` on a keypad edge, `restart` on a hook
  edge) is one atomic step. `Menu.Replay` runs any interleaving of them.
- `IS_FIRST_PLAYBACK` has no module-level initial value in the script.
  `main` calls `restart` before it registers the callbacks, so the
  `Phone` constructor starts in the state `restart` leaves.

Where the code and its comments disagree, the model follows the code:

- `readadc` shifts the 12-bit accumulator right by one. That drops the
  LAST bit read, although the comments at lines 43 and 53 say the first
  ("null") bit is dropped. The value returned is therefore the big-endian
  number of the first 11 bits read. It lies in 0..2047, not 0..1023, and it
  is below 1024 exactly when the first bit read is 0. Whether this is a bug
  depends on the chip's timing on the real wiring, so it is not listed as a
  finding.

## Model

| member | source | states |
|---|---|---|
| `Adc.ReadAdc` | code/katies_payphone.py:22-54 | A channel outside 0..7 gives -1 and an empty trace (no pin driven). A valid channel gives exactly the trace `ReadTrace(channel)` and the big-endian value of the first 11 of the 12 bits read, in 0..2047, and below 1024 when the first bit read is 0. |
| `Adc.SendCommand` | code/katies_payphone.py:30-40 | Shifting out `(adcnum \| 0x18) << 3` by testing bit 7 five times puts exactly the frames of `CommandBits(adcnum)` on the bus: 1, 1, then channel bits 2, 1, 0. |
| `Adc.ReceiveBits` | code/katies_payphone.py:42-50 | After 12 rounds of clock pulse, shift and sample, the accumulator is the big-endian value of all 12 bits read, and the trace is 12 read frames. |
| `Adc.DropLastBit` | code/katies_payphone.py:53 | `>>= 1` on the 12-bit accumulator leaves the value of the first 11 bits. |
| `Adc.SampleRange` | code/katies_payphone.py:42-54 | An 11-bit result is below 2048, and below 1024 when its first bit is 0. |
| `Adc.FromBitsBound` | code/katies_payphone.py:44-49 | n accumulated bits give a value below 2^n. |
| `Adc.FromBitsLeadingZero` | code/katies_payphone.py:44-49 | n accumulated bits whose first is 0 give a value below 2^(n-1). |
| `Adc.CommandBitOnWire` | code/katies_payphone.py:33-38 | In round i, `commandout & 0x80` is the i-th command bit in wire order, and `<<= 1` yields the next round's word. |
| `Adc.ShiftedCommandBits` | code/katies_payphone.py:30-38 | For a 3-bit channel, bit 7 of the word in the five rounds is 1, 1, then the channel's bits 2, 1, 0, and the word never exceeds 13 bits. |
| `Adc.ChannelBits` | code/katies_payphone.py:30 | The low three bits of a channel number 0..7 are its binary digits. |
| `Adc.CommandWordValue` | code/katies_payphone.py:30-32 | Read as a number, the 5 bits sent are `0x18 + channel`. |
| `Adc.CommandFramesLevels` | code/katies_payphone.py:33-40 | Command frames drive data-out with exactly the bits sent, never touch chip select, sample nothing, and pulse the clock once per bit. |
| `Adc.ReadFramesLevels` | code/katies_payphone.py:44-49 | n read frames never drive data-out or chip select, sample data-in n times and pulse the clock n times. |
| `Adc.ReadTraceShape` | code/katies_payphone.py:25-51 | Over a whole read, data-out carries exactly the command bits, chip select goes high, low, high, the clock pulses 17 times and data-in is sampled 12 times. |
| `Keypad.BandsDisjoint` | code/katies_payphone.py:231-254 | No sample lies in two of the twelve bands. |
| `Keypad.BandKeys` | code/katies_payphone.py:231-254 | The table has twelve bands, one per key, and no key appears twice. |
| `Keypad.LookupSound` | code/katies_payphone.py:231-254 | A decoded key is the key of a band holding the sample. |
| `Keypad.LookupComplete` | code/katies_payphone.py:231-254 | A sample in band i, and in no earlier band, decodes to band i's key. |
| `Keypad.LookupNone` | code/katies_payphone.py:231-254 | A sample in no band decodes to nothing. |
| `Keypad.DecodeBand` | code/katies_payphone.py:231-254 | A sample decodes to band i's key if and only if it lies in band i. |
| `Keypad.GapIsOutsideBands` | code/katies_payphone.py:231-254 | The listed gaps (at or below 390, 420, 440..445, 470, 490..500, ..., 910..960) are exactly the samples outside every band. |
| `Keypad.DecodeGaps` | code/katies_payphone.py:231-254 | Decoding gives one of the twelve keys, and gives nothing if and only if the sample is in a gap. |
| `Menu.TransitionReachable` | code/katies_payphone.py:164-217 | From a reachable session (resting at `[]`, `["1"]` or `["2"]`, past the playback introduction at `["2"]`), one key leads to a reachable session. |
| `Menu.TransitionResting` | code/katies_payphone.py:164-217 | From `[]`, `["1"]` or `["2"]`, one key leads back to one of those three menus. |
| `Menu.TransitionTable` | code/katies_payphone.py:176-217 | `"0"`/`"#"` at `["1"]` and `"0"` at `["2"]` restart; other keys at `["1"]`, and unknown keys at `[]` and `["2"]`, change nothing; `"2"` at `[]` enters playback with the flag cleared. |
| `Menu.PlaybackIndexMoves` | code/katies_payphone.py:191-211 | `"2"` at `["2"]` gives `["2"]`, counter plus one, flag false; every other press leaves the counter as it is or restarts. |
| `Menu.RunReachable` | code/katies_payphone.py:159-217 | Any sequence of keys keeps a session reachable. |
| `Menu.RunPlaybackIndex` | code/katies_payphone.py:205-211 | Without the resetting keys `"0"` and `"#"`, the counter never decreases and rises by at most one per key. |
| `Menu.ReplayReachable` | code/katies_payphone.py:262-263 | Any interleaving of keypad and hook callbacks keeps a session reachable. |
| `Menu.HandleNoKey` | code/katies_payphone.py:222-254 | A press while on hook or in a gap changes nothing; a hook edge restarts, and a second one changes nothing more. |
| `Menu.Scenarios` | code/katies_payphone.py:164-217 | Record then save returns to the start; record, re-record, review, discard returns to the start; `"2"` three times reaches counter 2; an unknown key at the start does nothing. |
| `Payphone.Phone.constructor` | code/katies_payphone.py:81-82 | The program starts in the state `restart` leaves. |
| `Payphone.Phone.Restart` | code/katies_payphone.py:128-136 | `MENU == []`, `PLAYBACK_INDEX == 0`, `IS_FIRST_PLAYBACK == true`, whatever the state before, so calling it twice is the same as once. |
| `Payphone.Phone.NavigateMenu` | code/katies_payphone.py:159-217 | The loop ends with the fields equal to `Transition` of the entry state, after 2 rounds for `"1"` at `["1"]` and `"1"`/`"2"` at `["2"]` and 1 round otherwise; it keeps `[]`/`["1"]`/`["2"]` and keeps reachable sessions reachable. |
| `Payphone.Phone.ButtonHandler` | code/katies_payphone.py:222-254 | On hook, nothing is read and nothing changes. Off hook, channel 0 is read and `NavigateMenu` runs at most once, exactly when the sample decodes to a key, moving the session as `Handle` says. |
| `Payphone.AppendedMenu` | code/katies_payphone.py:164 | `MENU.append(key)` equals a list `p` exactly when `MENU` is `p` without its last element and `key` is that element. |
| `Payphone.FirstRound` | code/katies_payphone.py:168-217 | For each of the loop's ten branches, what the first round finds says what `Transition` yields and whether a second round follows. |
| `Payphone.DecodeChain` | code/katies_payphone.py:231-254 | `Decode` agrees with the chain of comparisons `button_handler` writes out. |

## Left out

- GPIO pin setup and event registration (lines 12, 57-73, 262-264): hardware configuration. Pin I/O is the `dataIn` parameter and the returned trace.
- `phoneIsOffHook` (lines 87-88): its level is the `offHook` parameter of `ButtonHandler`.
- `play_wav`, `record_wav` and the `poll`/`kill` blocks in `restart` and `main` (lines 91-113, 146-151, 267-287): external processes. No reachable code path starts playback or recording, so there is no handle to clear.
- `find_file` (lines 116-125): filesystem listing and randomness. It is never called, and it uses `randrange`, which is never imported.
- Logging and every `print` (lines 14-19 and throughout): output only.
- Concurrency between the hook and keypad callbacks: each callback is one atomic step, and `Menu.Replay` covers any interleaving of them.
- Recording storage, playback from a store, and "last message" handling: these exist only as comments in the script.
- `main`'s exit and interrupt handling (lines 264-290): process shutdown.
