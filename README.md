# esp_led in Dafny

This is a model of `esp_led`, a small C driver for LEDs on an ESP32. It sits on
top of the ESP-IDF LEDC PWM peripheral and does two jobs:

- It configures the shared LEDC timer, a single LED (one channel) and an RGB LED
  (three channels).
- It turns an 8-bit brightness into a 13-bit duty value in [0, 8191]. For an RGB
  LED it also takes in a packed `0xRRGGBB` colour.

Every operation is a fixed, straight-line sequence of driver calls. The first
call that does not answer `ESP_OK` ends the operation, and its status is returned
unchanged.

Files:

- `led_types.dfy` (module `LedTypes`): the header's types.
  - `esp_err_t` with `ESP_OK`.
  - `uint8_t` as the subset type `uint8`, which by itself keeps brightness in 0..255.
  - The fixture records `rgb_led_t` and `led_t` as the datatypes `RgbLed` and `SingleLed`.
- `ledc_driver.dfy` (module `LedcDriver`): the LEDC driver as an object.
  - The configuration records are `TimerConfig` and `ChannelConfig`.
  - A `Driver` has four operations (timer configure, channel configure, set duty,
    update duty). Each one appends one `Call` to `trace`.
  - Each call answers with the status scripted for its position in the trace:
    `Reply(replies, n)`, which is `ESP_OK` once the script is used up.
- `duty.dfy` (module `Duty`): the duty arithmetic of `setLED` and `setRGBLED`, and
  colour extraction with the source's own shifts and masks on `bv32`.
- `fail_fast.dfy` (module `FailFast`): `Chain`, the reference meaning of "issue
  these calls in order and stop at the first failure". It comes with lemmas that
  characterise where a chain stops and what it returns.
- `led.dfy` (module `Led`): the six operations of `led.c` as methods on a `Driver`.
  - Each method's postcondition ties the calls it made and the status it returned
    to `Chain` over the list of calls it plans.
  - Lemmas then state ordering, stopping and status for each operation.
  - There are three concrete scenarios.

The fixture records are passed by value, so the setup and set operations can read
the channel and pin fields but cannot change them. In the source, `setupChannel`
only reads `*channel` (led.c:73).

Integer model of the duties:

- `setLED` computes `(uint32_t)(b / 255.0f * 8191)`. This is modelled exactly as
  `floor(b * 8191 / 255)`.
- Because 8191 and 255 are coprime, `b * 8191 / 255` is a whole number only at
  b = 0 and b = 255 (`LedDutyExactOnlyAtEnds`). Everywhere else the exact quotient
  is at least 1/255 from an integer, which is far more than the single-precision
  error at this size.
- The code truncates. For brightness 128 the exact value is 4111.56; rounding
  would give 4112, but the code truncates to 4111. A green component of 0x80 at
  full brightness also gives 4111 (`LedDutyTruncates`, `RgbDutiesOrange`).
- `setRGBLED` computes `comp * (b / 255.0f) * 8191 / 255`. This is modelled as
  `floor(comp * b * 8191 / 65025)`.
- The second division by 255 scales the component onto [0, 1], just as the first
  scales the brightness. It is not a second attenuation: at full brightness an RGB
  channel gets exactly the single-LED duty of its component
  (`ChannelDutyMatchesLedDuty`).

## Model

| member | source | states |
|---|---|---|
| `Duty.DutyMaxIsFullResolution` | led.c:96 | the largest duty 8191 is 2^13 - 1, the largest value of the 13-bit timer resolution |
| `Duty.LedDuty` | led.c:149 | the single-LED duty is at most 8191 and is floor(brightness * 8191 / 255), given as the two inequalities that define the floor |
| `Duty.LedDutyEndpoints` | led.c:149 | brightness 0 gives duty 0 and brightness 255 gives 8191 |
| `Duty.LedDutyMonotone` | led.c:149 | the duty is non-decreasing in brightness |
| `Duty.LedDutyTruncates` | led.c:149 | the cast truncates: brightness 128 gives 4111, although the exact value 4111.56 is above 4111.5 |
| `Duty.LedDutyExactOnlyAtEnds` | led.c:149 | brightness * 8191 is divisible by 255 exactly when brightness is 0 or 255; so at every other brightness the exact quotient brightness * 8191 / 255 is at least 1/255 from every integer, which is more than the single-precision error of the product |
| `Duty.Red` | led.c:97 | the red byte is bits 16-23 of the colour: masking the colour to those bits gives the red byte shifted left by 16 |
| `Duty.Green` | led.c:98 | the green byte is bits 8-15 of the colour: masking the colour to those bits gives the green byte shifted left by 8 |
| `Duty.Blue` | led.c:99 | the blue byte is bits 0-7 of the colour: masking the colour to those bits gives the blue byte |
| `Duty.Pack` | led.h:74 | a 0xRRGGBB word holds red in bits 16-23, green in 8-15, blue in 0-7, and nothing above bit 23 |
| `Duty.ComponentsOfPack` | led.c:97-99 | the shift-and-mask extraction of red, green and blue returns the components packed as 0xRRGGBB |
| `Duty.PackOfComponents` | led.c:97-99 | the three extracted components hold exactly the low 24 bits of the colour |
| `Duty.ComponentsIgnoreHighBits` | led.c:97-99 | no bit above bit 23 of the colour changes any component |
| `Duty.ChannelDuty` | led.c:95-99 | an RGB channel duty is at most 8191 and is floor(component * brightness * 8191 / 65025), given by the floor's defining inequalities |
| `Duty.ChannelDutyZero` | led.c:95-99 | a zero component or zero brightness gives duty 0 |
| `Duty.ChannelDutyFull` | led.c:95-99 | component 255 at brightness 255 gives exactly 8191 |
| `Duty.ChannelDutyZeroIff` | led.c:95-99 | the channel duty is 0 exactly when component * brightness is at most 7 |
| `Duty.ChannelDutyMonotone` | led.c:95-99 | the channel duty is non-decreasing in the component and in the brightness together |
| `Duty.ChannelDutyMatchesLedDuty` | led.c:95-99 | at brightness 255 the RGB duty of a component equals the single-LED duty of that byte, and symmetrically for component 255 |
| `Duty.ChannelDutyAtMostLedDuty` | led.c:95-99 | an RGB channel duty never exceeds the single-LED duty of its component or of its brightness |
| `Duty.RgbDuties` | led.c:95-99 | all three duties computed for one `setRGBLED` call lie in [0, 8191] |
| `Duty.RgbDutiesIgnoreHighBits` | led.c:97-99 | the three duties depend only on the low 24 bits of the colour |
| `Duty.RgbDutiesOrange` | led.c:95-99 | 0xFF8000 at brightness 255 gives red 8191, green 4111 and blue 0 |
| `FailFast.Chain` | led.c:30-48 | a fail-fast sequence issues no more calls than planned, issues none exactly when none is planned, and otherwise always issues the first planned call |
| `FailFast.ChainIssuesPrefix` | led.c:102-142 | a fail-fast sequence issues a prefix of its planned calls, and at least one call when any is planned |
| `FailFast.ChainStopsAt` | led.c:30-48 | if call k is the first to fail, exactly calls 0..k are issued and call k's status is returned |
| `FailFast.ChainAllSucceed` | led.c:30-48 | if every call succeeds, all calls are issued and ESP_OK is returned |
| `FailFast.ChainOkIff` | led.c:102-142 | ESP_OK is returned exactly when every planned call succeeds, and then every call was issued |
| `FailFast.ChainFailureIsLastCall` | led.c:102-142 | a failing status is the reply to the last call issued, and every earlier call succeeded |
| `FailFast.ChainIssuedAfterSuccess` | led.c:102-142 | a call is issued only after every call before it succeeded |
| `Led.LedcTimer` | led.c:8-13 | the timer is configured in low-speed mode as timer 0 at 4000 Hz with the automatic clock and 13-bit resolution, so that 2^resolution - 1 is exactly the largest duty 8191 |
| `Led.SetupRgbLedCalls` | led.c:30-46 | three channel configurations are planned, red, green and blue in that order, each with its own colour's channel and pin |
| `Led.SetRgbLedCalls` | led.c:97-139 | six calls are planned: set-duty on red, green and blue with the red, green and blue duties `RgbDuties` computes from the colour and brightness, then update-duty on red, green and blue; every duty is at most 8191 |
| `Led.SetLedCalls` | led.c:149-160 | two calls are planned: set-duty with the single-LED duty of the brightness on the LED's channel, then update-duty on the same channel; the duty is at most 8191 |
| `Led.RgbLedPairsIndependent` | led.h:15-22 | each colour's configuration depends on exactly that colour's channel and pin, both of them and nothing else, and two records give the same setup exactly when they are equal |
| `Led.SingleLedFieldsUsed` | led.h:24-27 | a single LED's configuration depends on both its channel and its pin, and setting its brightness depends on its channel only |
| `Led.ChannelConf` | led.c:70-77 | a channel is configured with the given pin and channel, low-speed mode, timer 0, interrupts disabled, and duty and hpoint 0 |
| `Led.SetupLedc` | led.c:8-21 | exactly one timer configuration call with low-speed mode, timer 0, 13 bits, 4000 Hz and automatic clock, and its status is returned unchanged |
| `Led.SetupChannel` | led.c:70-87 | exactly one channel configuration call with `ChannelConf(channel, pin)`, and its status is returned unchanged |
| `Led.SetupLed` | led.c:56-62 | exactly one channel configuration call for the LED's channel and pin, and its status is returned unchanged |
| `Led.SetupRgbLed` | led.c:30-48 | the calls made and the status returned are the fail-fast run of the red, green and blue configurations |
| `Led.SetRgbLed` | led.c:95-142 | the calls made and the status returned are the fail-fast run of set-duty R, G, B, then update-duty R, G, B, with the computed duties |
| `Led.SetLed` | led.c:149-168 | the calls made and the status returned are the fail-fast run of set-duty and then update-duty on the LED's channel |
| `Led.SetupRgbLedFailsAt` | led.c:30-48 | if configuration k of red, green, blue fails first, the earlier channels stay configured, no later one is configured, and status k is returned |
| `Led.SetupRgbLedOkIff` | led.c:30-48 | `setupRGBLED` returns ESP_OK exactly when all three configurations succeed, and then it has configured red, green and blue in order |
| `Led.SetRgbLedUpdatesAfterSets` | led.c:102-139 | an update-duty call is issued only after the red, green and blue set-duty calls with their computed duties have all succeeded |
| `Led.SetRgbLedFailsAt` | led.c:102-142 | if call k of the six fails first, exactly calls 0..k are issued and status k is returned |
| `Led.SetRgbLedOkIff` | led.c:102-142 | `setRGBLED` returns ESP_OK exactly when all six calls succeed, and then all six were issued |
| `Led.SetLedSequence` | led.c:152-168 | a failed set-duty means update-duty is never called and the set status is returned; otherwise update-duty follows on the same channel and its status is returned; ESP_OK only if both succeed |
| `Led.LedScenario` | led.c:145-168 | any LED set up and then set to brightness 128, with a driver that accepts every call, is configured and gets duty 4111 staged and committed on its channel, and both operations return ESP_OK |
| `Led.RgbScenario` | led.c:90-142 | any RGB LED set up and then set to 0xFF8000 at brightness 255, with a driver that accepts every call, is configured and gets duties 8191, 4111, 0 staged and then committed in R, G, B order |
| `Led.SetRgbLedCallsOrange` | led.c:95-139 | the calls planned for 0xFF8000 at brightness 255 stage duties 8191, 4111 and 0 on red, green and blue, then commit red, green and blue |
| `Led.RgbSetupBlueFailsScenario` | led.c:42-46 | when the blue configuration is rejected with any error, red and green were configured, blue was attempted, and that error is returned |

## Left out

- Duty.ChannelDuty: it models the exact rational floor of `comp * (b/255) * 8191 / 255`. The single-precision expression at led.c:97-99 can differ from it by one near integer boundaries. Only the bound, the zero cases, the full value, and monotonicity are claimed to carry over to the float code.
- LEDC driver internals (`ledc_timer_config`, `ledc_channel_config`, `ledc_set_duty`, `ledc_update_duty`) are foreign calls. They are modelled only as trace entries that answer a scripted status.
- Register state and the physical LED are not modelled, for the same reason as the driver internals. So "a second `setRGBLED` leaves only the second colour applied" is seen only as the later set and update calls in the trace.
- Logging (`ESP_LOGx`, `esp_err_to_name`) is not modelled, because it has no behavioural contract.
- FreeRTOS and multi-task use are not modelled. The code has no concurrency.
- Calling `setupLEDC` twice is modelled only as a second timer configuration call. Its effect on the timer is up to the driver.
- Pointers to the fixture records are not modelled: the records are passed as values. The model therefore cannot express a write through those pointers, and the source makes none.
- `esp_err_t` is an unbounded integer. The model only tests it against `ESP_OK` and passes it through, so 32-bit width plays no part.
