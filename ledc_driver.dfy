/**
 An abstract model of the ESP-IDF LEDC peripheral driver as the LED layer
 sees it. The driver's internals are not modelled: every call is recorded,
 with its arguments, as one entry of a trace, and answers with a status taken
 from a fixed script of replies indexed by the call's position in the trace.
 */
module LedcDriver {
  import opened LedTypes

  /** `ledc_mode_t` */
  datatype SpeedMode = LowSpeedMode | HighSpeedMode

  /** `ledc_clk_cfg_t`: automatic selection, or one named clock source. */
  datatype ClockConfig = AutoClk | FixedClk(source: nat)

  /** `ledc_intr_type_t` */
  datatype IntrType = IntrDisable | IntrFadeEnd

  /** `ledc_timer_config_t` */
  datatype TimerConfig = TimerConfig(
    speedMode: SpeedMode,
    timerNum: nat,
    dutyResolution: nat,
    freqHz: nat,
    clkCfg: ClockConfig)

  /** `ledc_channel_config_t` */
  datatype ChannelConfig = ChannelConfig(
    gpioNum: int,
    speedMode: SpeedMode,
    channel: ChannelId,
    intrType: IntrType,
    timerSel: nat,
    duty: nat,
    hpoint: int)

  /** One call into the driver, with the arguments it was given. */
  datatype Call =
    | TimerConfigCall(timer: TimerConfig)
    | ChannelConfigCall(config: ChannelConfig)
    | SetDutyCall(mode: SpeedMode, channel: ChannelId, duty: nat)
    | UpdateDutyCall(mode: SpeedMode, channel: ChannelId)

  /** The status the driver returns for the call at position `n` of its
      trace: the n-th scripted reply, and ESP_OK once the script is used up. */
  function Reply(replies: seq<EspErr>, n: nat): EspErr
  {
    if n < |replies| then replies[n] else ESP_OK
  }

  /** The driver. Each of its four operations appends exactly one call to
      `trace` and returns the reply scripted for that position. */
  class Driver {
    var trace: seq<Call>
    const replies: seq<EspErr>

    constructor (replies: seq<EspErr>)
      ensures trace == [] && this.replies == replies
    {
      trace := [];
      this.replies := replies;
    }

    /** `ledc_timer_config` */
    method ConfigureTimer(timer: TimerConfig) returns (status: EspErr)
      modifies this
      ensures trace == old(trace) + [TimerConfigCall(timer)]
      ensures status == Reply(replies, |old(trace)|)
    {
      status := Reply(replies, |trace|);
      trace := trace + [TimerConfigCall(timer)];
    }

    /** `ledc_channel_config` */
    method ConfigureChannel(config: ChannelConfig) returns (status: EspErr)
      modifies this
      ensures trace == old(trace) + [ChannelConfigCall(config)]
      ensures status == Reply(replies, |old(trace)|)
    {
      status := Reply(replies, |trace|);
      trace := trace + [ChannelConfigCall(config)];
    }

    /** `ledc_set_duty`: stages a duty value on a channel. */
    method SetDuty(mode: SpeedMode, channel: ChannelId, duty: nat) returns (status: EspErr)
      modifies this
      ensures trace == old(trace) + [SetDutyCall(mode, channel, duty)]
      ensures status == Reply(replies, |old(trace)|)
    {
      status := Reply(replies, |trace|);
      trace := trace + [SetDutyCall(mode, channel, duty)];
    }

    /** `ledc_update_duty`: commits the staged duty value of a channel. */
    method UpdateDuty(mode: SpeedMode, channel: ChannelId) returns (status: EspErr)
      modifies this
      ensures trace == old(trace) + [UpdateDutyCall(mode, channel)]
      ensures status == Reply(replies, |old(trace)|)
    {
      status := Reply(replies, |trace|);
      trace := trace + [UpdateDutyCall(mode, channel)];
    }
  }
}
