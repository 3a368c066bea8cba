/**
 The LED driver's operations: configuring the shared LEDC timer, one channel,
 a single LED and an RGB LED, and setting the brightness of a single LED or
 the colour and brightness of an RGB LED. Each is a straight-line sequence of
 driver calls that returns at the first call that does not answer ESP_OK;
 each method's postcondition ties the calls it made, and the status it
 returned, to the fail-fast run of its planned call list.

 The fixture records are passed by value: the operations read their channel
 and pin fields and cannot change them.
 */
module Led {
  import opened LedTypes
  import opened LedcDriver
  import opened Duty
  import opened FailFast

  /** The fixed configuration `setupLEDC` gives timer 0: low-speed mode,
      13-bit resolution, 4 kHz, automatic clock selection. Its resolution is
      what makes 8191 the largest duty the other operations write. */
  function LedcTimer(): (timer: TimerConfig)
    ensures timer.speedMode == LowSpeedMode && timer.timerNum == 0
    ensures timer.freqHz == 4000 && timer.clkCfg == AutoClk
    ensures timer.dutyResolution == DUTY_RESOLUTION_BITS
    ensures Pow2(timer.dutyResolution) - 1 == DUTY_MAX
  {
    DutyMaxIsFullResolution();
    TimerConfig(LowSpeedMode, 0, DUTY_RESOLUTION_BITS, 4000, AutoClk)
  }

  /** The configuration `setupChannel` gives a channel: the pin, low-speed
      mode, interrupts off, timer 0, initial duty 0 and hpoint 0. */
  function ChannelConf(channel: ChannelId, pin: int): (config: ChannelConfig)
    ensures config.channel == channel && config.gpioNum == pin
    ensures config.speedMode == LowSpeedMode && config.timerSel == LedcTimer().timerNum
    ensures config.intrType == IntrDisable && config.duty == 0 && config.hpoint == 0
  {
    ChannelConfig(pin, LowSpeedMode, channel, IntrDisable, 0, 0, 0)
  }

  // ---------------------------------------------------------------------
  // Planned call lists
  // ---------------------------------------------------------------------

  /** `setupRGBLED` configures red, then green, then blue, each channel with
      the pin of its own colour. */
  function SetupRgbLedCalls(led: RgbLed): (calls: seq<Call>)
    ensures |calls| == 3
    ensures calls[0] == ChannelConfigCall(ChannelConf(led.redChannel, led.redPin))
    ensures calls[1] == ChannelConfigCall(ChannelConf(led.greenChannel, led.greenPin))
    ensures calls[2] == ChannelConfigCall(ChannelConf(led.blueChannel, led.bluePin))
  {
    [ ChannelConfigCall(ChannelConf(led.redChannel, led.redPin)),
      ChannelConfigCall(ChannelConf(led.greenChannel, led.greenPin)),
      ChannelConfigCall(ChannelConf(led.blueChannel, led.bluePin)) ]
  }

  /** `setRGBLED` stages the red, green and blue duties, then commits red,
      green and blue; every duty is the channel duty of its own colour byte. */
  function SetRgbLedCalls(led: RgbLed, color: bv32, brightness: uint8): (calls: seq<Call>)
    ensures |calls| == 6
    ensures calls[..3] == [SetDutyCall(LowSpeedMode, led.redChannel, RgbDuties(color, brightness).red),
                           SetDutyCall(LowSpeedMode, led.greenChannel, RgbDuties(color, brightness).green),
                           SetDutyCall(LowSpeedMode, led.blueChannel, RgbDuties(color, brightness).blue)]
    ensures calls[3..] == [UpdateDutyCall(LowSpeedMode, led.redChannel),
                           UpdateDutyCall(LowSpeedMode, led.greenChannel),
                           UpdateDutyCall(LowSpeedMode, led.blueChannel)]
    ensures forall i :: 0 <= i < 3 ==> calls[i].SetDutyCall? && calls[i].duty <= DUTY_MAX
  {
    var duty := RgbDuties(color, brightness);
    [ SetDutyCall(LowSpeedMode, led.redChannel, duty.red),
      SetDutyCall(LowSpeedMode, led.greenChannel, duty.green),
      SetDutyCall(LowSpeedMode, led.blueChannel, duty.blue),
      UpdateDutyCall(LowSpeedMode, led.redChannel),
      UpdateDutyCall(LowSpeedMode, led.greenChannel),
      UpdateDutyCall(LowSpeedMode, led.blueChannel) ]
  }

  /** `setLED` stages the duty of its channel, then commits it. */
  function SetLedCalls(led: SingleLed, brightness: uint8): (calls: seq<Call>)
    ensures |calls| == 2
    ensures calls[0] == SetDutyCall(LowSpeedMode, led.channel, LedDuty(brightness))
    ensures calls[1] == UpdateDutyCall(LowSpeedMode, led.channel)
    ensures calls[0].duty <= DUTY_MAX
  {
    [ SetDutyCall(LowSpeedMode, led.channel, LedDuty(brightness)),
      UpdateDutyCall(LowSpeedMode, led.channel) ]
  }

  /** The three (channel, pin) pairs of an RGB LED record are used
      independently: the configuration of one colour depends on that colour's
      pair and on nothing else, and on both of its fields. */
  lemma RgbLedPairsIndependent(a: RgbLed, b: RgbLed)
    ensures SetupRgbLedCalls(a)[0] == SetupRgbLedCalls(b)[0]
        <==> a.redChannel == b.redChannel && a.redPin == b.redPin
    ensures SetupRgbLedCalls(a)[1] == SetupRgbLedCalls(b)[1]
        <==> a.greenChannel == b.greenChannel && a.greenPin == b.greenPin
    ensures SetupRgbLedCalls(a)[2] == SetupRgbLedCalls(b)[2]
        <==> a.blueChannel == b.blueChannel && a.bluePin == b.bluePin
    ensures SetupRgbLedCalls(a) == SetupRgbLedCalls(b) <==> a == b
  {
    if SetupRgbLedCalls(a) == SetupRgbLedCalls(b) {
      assert SetupRgbLedCalls(a)[0] == SetupRgbLedCalls(b)[0];
      assert SetupRgbLedCalls(a)[1] == SetupRgbLedCalls(b)[1];
      assert SetupRgbLedCalls(a)[2] == SetupRgbLedCalls(b)[2];
    }
  }

  /** A single LED's record is configured through both of its fields, while
      setting its brightness reads the channel alone. */
  lemma SingleLedFieldsUsed(a: SingleLed, b: SingleLed, brightness: uint8)
    ensures ChannelConf(a.channel, a.pin) == ChannelConf(b.channel, b.pin) <==> a == b
    ensures SetLedCalls(a, brightness) == SetLedCalls(b, brightness) <==> a.channel == b.channel
  {
    if SetLedCalls(a, brightness) == SetLedCalls(b, brightness) {
      assert SetLedCalls(a, brightness)[1] == SetLedCalls(b, brightness)[1];
    }
  }

  // ---------------------------------------------------------------------
  // Operations
  // ---------------------------------------------------------------------

  /** `setupLEDC`: one timer configuration call; its status is returned. */
  method SetupLedc(d: Driver) returns (status: EspErr)
    modifies d
    ensures d.trace == old(d.trace) + [TimerConfigCall(LedcTimer())]
    ensures status == Reply(d.replies, |old(d.trace)|)
  {
    status := d.ConfigureTimer(LedcTimer());
    if status != ESP_OK {
      return status;
    }
    return status;
  }

  /** `setupChannel`: one channel configuration call; its status is returned. */
  method SetupChannel(d: Driver, channel: ChannelId, pin: int) returns (status: EspErr)
    modifies d
    ensures d.trace == old(d.trace) + [ChannelConfigCall(ChannelConf(channel, pin))]
    ensures status == Reply(d.replies, |old(d.trace)|)
  {
    status := d.ConfigureChannel(ChannelConf(channel, pin));
    if status != ESP_OK {
      return status;
    }
    return status;
  }

  /** `setupLED`: one `setupChannel` on the LED's channel and pin. */
  method SetupLed(d: Driver, led: SingleLed) returns (status: EspErr)
    modifies d
    ensures d.trace == old(d.trace) + [ChannelConfigCall(ChannelConf(led.channel, led.pin))]
    ensures status == Reply(d.replies, |old(d.trace)|)
  {
    status := SetupChannel(d, led.channel, led.pin);
    if status != ESP_OK {
      return status;
    }
    return status;
  }

  /** `setupRGBLED`: red, green and blue channels, stopping at the first
      failure. */
  method SetupRgbLed(d: Driver, led: RgbLed) returns (status: EspErr)
    modifies d
    ensures var run := Chain(SetupRgbLedCalls(led), d.replies, |old(d.trace)|);
      d.trace == old(d.trace) + run.issued && status == run.status
  {
    ghost var calls := SetupRgbLedCalls(led);
    ghost var n := |d.trace|;
    status := SetupChannel(d, led.redChannel, led.redPin);
    if status != ESP_OK {
      ChainStopsAt(calls, d.replies, n, 0);
      return status;
    }
    status := SetupChannel(d, led.greenChannel, led.greenPin);
    if status != ESP_OK {
      ChainStopsAt(calls, d.replies, n, 1);
      return status;
    }
    status := SetupChannel(d, led.blueChannel, led.bluePin);
    if status != ESP_OK {
      ChainStopsAt(calls, d.replies, n, 2);
      assert calls[..3] == calls;
      return status;
    }
    ChainAllSucceed(calls, d.replies, n);
    return status;
  }

  /** `setRGBLED`: three set-duty calls, then three update-duty calls, in
      red, green, blue order, stopping at the first failure. */
  method SetRgbLed(d: Driver, led: RgbLed, color: bv32, brightness: uint8) returns (status: EspErr)
    modifies d
    ensures var run := Chain(SetRgbLedCalls(led, color, brightness), d.replies, |old(d.trace)|);
      d.trace == old(d.trace) + run.issued && status == run.status
  {
    ghost var calls := SetRgbLedCalls(led, color, brightness);
    ghost var n := |d.trace|;
    var red := ChannelDuty(Red(color) as int, brightness);
    var green := ChannelDuty(Green(color) as int, brightness);
    var blue := ChannelDuty(Blue(color) as int, brightness);
    assert RgbDuties(color, brightness) == RgbDuty(red, green, blue);

    status := d.SetDuty(LowSpeedMode, led.redChannel, red);
    assert d.trace == old(d.trace) + calls[..1];
    if status != ESP_OK {
      ChainStopsAt(calls, d.replies, n, 0);
      return status;
    }
    status := d.SetDuty(LowSpeedMode, led.greenChannel, green);
    assert d.trace == old(d.trace) + calls[..2];
    if status != ESP_OK {
      ChainStopsAt(calls, d.replies, n, 1);
      return status;
    }
    status := d.SetDuty(LowSpeedMode, led.blueChannel, blue);
    assert d.trace == old(d.trace) + calls[..3];
    if status != ESP_OK {
      ChainStopsAt(calls, d.replies, n, 2);
      return status;
    }

    status := d.UpdateDuty(LowSpeedMode, led.redChannel);
    assert d.trace == old(d.trace) + calls[..4];
    if status != ESP_OK {
      ChainStopsAt(calls, d.replies, n, 3);
      return status;
    }
    status := d.UpdateDuty(LowSpeedMode, led.greenChannel);
    assert d.trace == old(d.trace) + calls[..5];
    if status != ESP_OK {
      ChainStopsAt(calls, d.replies, n, 4);
      return status;
    }
    status := d.UpdateDuty(LowSpeedMode, led.blueChannel);
    assert d.trace == old(d.trace) + calls;
    if status != ESP_OK {
      ChainStopsAt(calls, d.replies, n, 5);
      assert calls[..6] == calls;
      return status;
    }
    ChainAllSucceed(calls, d.replies, n);
    return status;
  }

  /** `setLED`: a set-duty call, then an update-duty call on the same
      channel, stopping at the first failure. */
  method SetLed(d: Driver, led: SingleLed, brightness: uint8) returns (status: EspErr)
    modifies d
    ensures var run := Chain(SetLedCalls(led, brightness), d.replies, |old(d.trace)|);
      d.trace == old(d.trace) + run.issued && status == run.status
  {
    ghost var calls := SetLedCalls(led, brightness);
    ghost var n := |d.trace|;
    var duty := LedDuty(brightness);

    status := d.SetDuty(LowSpeedMode, led.channel, duty);
    if status != ESP_OK {
      ChainStopsAt(calls, d.replies, n, 0);
      return status;
    }

    status := d.UpdateDuty(LowSpeedMode, led.channel);
    if status != ESP_OK {
      ChainStopsAt(calls, d.replies, n, 1);
      assert calls[..2] == calls;
      return status;
    }
    ChainAllSucceed(calls, d.replies, n);
    return status;
  }

  // ---------------------------------------------------------------------
  // Properties of the operations
  // ---------------------------------------------------------------------

  /** If the red (k = 0), green (1) or blue (2) configuration is the first to
      fail, the channels before it stay configured, no channel after it is
      configured, and its status is returned. */
  lemma SetupRgbLedFailsAt(led: RgbLed, replies: seq<EspErr>, n: nat, k: nat)
    requires k < 3
    requires forall i :: n <= i < n + k ==> Reply(replies, i) == ESP_OK
    requires Reply(replies, n + k) != ESP_OK
    ensures var run := Chain(SetupRgbLedCalls(led), replies, n);
      && run.status == Reply(replies, n + k)
      && |run.issued| == k + 1
      && run.issued[0] == ChannelConfigCall(ChannelConf(led.redChannel, led.redPin))
      && (k >= 1 ==> run.issued[1] == ChannelConfigCall(ChannelConf(led.greenChannel, led.greenPin)))
      && (k == 2 ==> run.issued[2] == ChannelConfigCall(ChannelConf(led.blueChannel, led.bluePin)))
  {
    ChainStopsAt(SetupRgbLedCalls(led), replies, n, k);
  }

  /** `setupRGBLED` returns ESP_OK exactly when all three configurations
      succeed, and then it has configured red, green and blue in that order. */
  lemma SetupRgbLedOkIff(led: RgbLed, replies: seq<EspErr>, n: nat)
    ensures var run := Chain(SetupRgbLedCalls(led), replies, n);
      && (run.status == ESP_OK <==>
            (Reply(replies, n) == ESP_OK && Reply(replies, n + 1) == ESP_OK && Reply(replies, n + 2) == ESP_OK))
      && (run.status == ESP_OK ==> run.issued == SetupRgbLedCalls(led))
  {
    ChainOkIff(SetupRgbLedCalls(led), replies, n);
  }

  /** No duty is committed before all three duties have been staged
      successfully: an update call is issued only at position 3 or later,
      after the three set-duty calls of red, green and blue, each of which
      answered ESP_OK. */
  lemma SetRgbLedUpdatesAfterSets(led: RgbLed, color: bv32, brightness: uint8, replies: seq<EspErr>, n: nat, k: nat)
    requires var run := Chain(SetRgbLedCalls(led, color, brightness), replies, n);
      k < |run.issued| && run.issued[k].UpdateDutyCall?
    ensures var run := Chain(SetRgbLedCalls(led, color, brightness), replies, n);
      var duty := RgbDuties(color, brightness);
      && 3 <= k
      && run.issued[..3] == [ SetDutyCall(LowSpeedMode, led.redChannel, duty.red),
                              SetDutyCall(LowSpeedMode, led.greenChannel, duty.green),
                              SetDutyCall(LowSpeedMode, led.blueChannel, duty.blue) ]
      && Reply(replies, n) == ESP_OK && Reply(replies, n + 1) == ESP_OK && Reply(replies, n + 2) == ESP_OK
  {
    var calls := SetRgbLedCalls(led, color, brightness);
    var run := Chain(calls, replies, n);
    ChainIssuesPrefix(calls, replies, n);
    assert run.issued[k] == calls[k];
    ChainIssuedAfterSuccess(calls, replies, n, k);
    assert run.issued[..3] == calls[..3];
  }

  /** If call k (0-2 the sets, 3-5 the updates) of `setRGBLED` is the first
      to fail, exactly calls 0..k have been issued and call k's status is
      returned. */
  lemma SetRgbLedFailsAt(led: RgbLed, color: bv32, brightness: uint8, replies: seq<EspErr>, n: nat, k: nat)
    requires k < 6
    requires forall i :: n <= i < n + k ==> Reply(replies, i) == ESP_OK
    requires Reply(replies, n + k) != ESP_OK
    ensures var run := Chain(SetRgbLedCalls(led, color, brightness), replies, n);
      && run.status == Reply(replies, n + k)
      && run.issued == SetRgbLedCalls(led, color, brightness)[..k + 1]
      && |run.issued| == k + 1
  {
    ChainStopsAt(SetRgbLedCalls(led, color, brightness), replies, n, k);
  }

  /** `setRGBLED` returns ESP_OK exactly when all six calls succeed, and then
      all six have been issued. */
  lemma SetRgbLedOkIff(led: RgbLed, color: bv32, brightness: uint8, replies: seq<EspErr>, n: nat)
    ensures var run := Chain(SetRgbLedCalls(led, color, brightness), replies, n);
      && (run.status == ESP_OK <==> forall i :: n <= i < n + 6 ==> Reply(replies, i) == ESP_OK)
      && (run.status == ESP_OK ==> run.issued == SetRgbLedCalls(led, color, brightness))
  {
    ChainOkIff(SetRgbLedCalls(led, color, brightness), replies, n);
  }

  /** `setLED` stages and then commits on the same channel; if staging fails
      the commit is never issued and the staging status is returned; if the
      commit fails its status is returned; ESP_OK only when both succeed. */
  lemma SetLedSequence(led: SingleLed, brightness: uint8, replies: seq<EspErr>, n: nat)
    ensures var run := Chain(SetLedCalls(led, brightness), replies, n);
      var stage := SetDutyCall(LowSpeedMode, led.channel, LedDuty(brightness));
      var commit := UpdateDutyCall(LowSpeedMode, led.channel);
      && (Reply(replies, n) != ESP_OK ==> run == Run([stage], Reply(replies, n)))
      && (Reply(replies, n) == ESP_OK ==> run == Run([stage, commit], Reply(replies, n + 1)))
      && (run.status == ESP_OK <==> Reply(replies, n) == ESP_OK && Reply(replies, n + 1) == ESP_OK)
  {
    var calls := SetLedCalls(led, brightness);
    if Reply(replies, n) != ESP_OK {
      ChainStopsAt(calls, replies, n, 0);
    } else if Reply(replies, n + 1) != ESP_OK {
      ChainStopsAt(calls, replies, n, 1);
      assert calls[..2] == calls;
    } else {
      ChainAllSucceed(calls, replies, n);
    }
  }

  // ---------------------------------------------------------------------
  // Scenarios
  // ---------------------------------------------------------------------

  /** Any single LED set up and then set to brightness 128, with a driver
      that accepts every call: its channel is configured, duty 4111 is staged
      and committed on it, and both operations succeed. */
  method LedScenario(led: SingleLed) returns (setup: EspErr, status: EspErr, trace: seq<Call>)
    ensures setup == ESP_OK && status == ESP_OK
    ensures trace == [ ChannelConfigCall(ChannelConf(led.channel, led.pin)),
                       SetDutyCall(LowSpeedMode, led.channel, 4111),
                       UpdateDutyCall(LowSpeedMode, led.channel) ]
  {
    var d := new Driver([]);
    setup := SetupLed(d, led);
    status := SetLed(d, led, 128);
    LedDutyTruncates();
    SetLedSequence(led, 128, d.replies, 1);
    trace := d.trace;
  }

  /** Any RGB LED set up and then set to orange 0xFF8000 at full brightness,
      with a driver that accepts every call: its three channels are
      configured, then red gets the full duty, green 4111 and blue 0. */
  method RgbScenario(led: RgbLed) returns (setup: EspErr, status: EspErr, trace: seq<Call>)
    ensures setup == ESP_OK && status == ESP_OK
    ensures trace == SetupRgbLedCalls(led) +
      [ SetDutyCall(LowSpeedMode, led.redChannel, DUTY_MAX),
        SetDutyCall(LowSpeedMode, led.greenChannel, 4111),
        SetDutyCall(LowSpeedMode, led.blueChannel, 0),
        UpdateDutyCall(LowSpeedMode, led.redChannel),
        UpdateDutyCall(LowSpeedMode, led.greenChannel),
        UpdateDutyCall(LowSpeedMode, led.blueChannel) ]
  {
    var d := new Driver([]);
    setup := SetupRgbLed(d, led);
    SetupRgbLedOkIff(led, d.replies, 0);
    status := SetRgbLed(d, led, 0xFF8000, 255);
    SetRgbLedOkIff(led, 0xFF8000, 255, d.replies, 3);
    SetRgbLedCallsOrange(led);
    trace := d.trace;
  }

  /** The calls `setRGBLED` plans for orange 0xFF8000 at brightness 255. */
  lemma SetRgbLedCallsOrange(led: RgbLed)
    ensures SetRgbLedCalls(led, 0xFF8000, 255) ==
      [ SetDutyCall(LowSpeedMode, led.redChannel, DUTY_MAX),
        SetDutyCall(LowSpeedMode, led.greenChannel, 4111),
        SetDutyCall(LowSpeedMode, led.blueChannel, 0),
        UpdateDutyCall(LowSpeedMode, led.redChannel),
        UpdateDutyCall(LowSpeedMode, led.greenChannel),
        UpdateDutyCall(LowSpeedMode, led.blueChannel) ]
  {
  }

  /** An RGB setup whose blue configuration is rejected with error `e`:
      red and green were configured, the blue configuration was attempted,
      and `e` is returned. */
  method RgbSetupBlueFailsScenario(led: RgbLed, e: EspErr) returns (setup: EspErr, trace: seq<Call>)
    requires e != ESP_OK
    ensures setup == e
    ensures trace == SetupRgbLedCalls(led)
  {
    var d := new Driver([ESP_OK, ESP_OK, e]);
    setup := SetupRgbLed(d, led);
    ChainStopsAt(SetupRgbLedCalls(led), d.replies, 0, 2);
    assert SetupRgbLedCalls(led)[..3] == SetupRgbLedCalls(led);
    trace := d.trace;
  }
}
