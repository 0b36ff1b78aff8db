/** The MT9D113 driver's state, struct sensor_info, and its operations as
    methods that update it step by step. Each method is proved to leave
    the trace, the transfer count and the recorded mode exactly as the
    matching function of Mt9d113Spec says. */
module Mt9d113Driver {
  import opened Wrappers
  import opened Mt9d113Tables
  import opened Mt9d113Spec

  class Sensor {
    /** The I2C client, whose bus answers the k-th transfer with
        client.transferResult(k). */
    const client: I2cClient
    /** The board callbacks, if the board supplied platform data. */
    const pdata: Option<PlatformData>
    const tables: ModeTables
    /** info->mode: the index of the mode programmed last, or -1. */
    var mode: int
    /** Transfers issued on the bus so far. */
    var attempts: nat
    /** Everything the driver has done to the outside world, in order. */
    var trace: seq<Event>

    predicate Valid()
      reads this
    {
      ValidMode(mode) && TablesTerminated(tables)
    }

    /** sensor_probe, once the allocation and the misc device registration
        have succeeded: no mode is programmed yet. */
    constructor Probe(client: I2cClient, pdata: Option<PlatformData>, tables: ModeTables)
      requires FromSource(tables)
      requires Terminated(tables.mode1280x720) && Terminated(tables.mode800x600) && Terminated(tables.mode640x480)
      ensures Valid() && FromSource(this.tables)
      ensures this.client == client && this.pdata == pdata && this.tables == tables
      ensures mode == -1 && attempts == 0 && trace == []
    {
      SourceTablesTerminated(tables);
      this.client := client;
      this.pdata := pdata;
      this.tables := tables;
      mode := -1;
      attempts := 0;
      trace := [];
    }

    /** i2c_transfer on the client's adapter. */
    method I2cTransfer(msgs: seq<Msg>) returns (res: int)
      modifies this
      ensures res == client.transferResult(old(attempts))
      ensures attempts == old(attempts) + 1 && trace == old(trace) + [Transfer(msgs, res)]
      ensures mode == old(mode)
    {
      res := client.transferResult(attempts);
      trace := trace + [Transfer(msgs, res)];
      attempts := attempts + 1;
    }

    /** msleep and mdelay. */
    method Pause(ms: nat)
      modifies this
      ensures trace == old(trace) + [Sleep(ms)]
      ensures attempts == old(attempts) && mode == old(mode)
    {
      trace := trace + [Sleep(ms)];
    }

    /** sensor_read_reg: buf is what the caller's variable held before. */
    method ReadReg(addr: u16, buf: u16) returns (err: int, val: u16)
      modifies this
      ensures var r := ReadRegRun(client, old(attempts), addr, buf);
        err == r.err && val == r.val && trace == old(trace) + r.events && attempts == old(attempts) + r.used
      ensures mode == old(mode)
    {
      val := buf;
      if !client.hasAdapter {
        return -ENODEV, val;
      }
      var n := attempts;
      var res := I2cTransfer([WriteMsg(BigEndianBytes(addr)), ReadMsg(2)]);
      if res != 2 {
        return -EINVAL, val;
      }
      var reply := client.readReply(n);
      // swap the two bytes received, then copy them into the u16
      var swapped := (reply.1, reply.0);
      val := HostLoad16(swapped.0, swapped.1);
      err := 0;
    }

    /** sensor_write_reg: nothing without an adapter, else the frame of
        the write, high bytes first, sent by the retry loop. */
    method WriteReg(addr: u16, val: u16) returns (err: int)
      modifies this
      ensures var r := WriteRegRun(client, old(attempts), addr, val);
        err == r.err && trace == old(trace) + r.events && attempts == old(attempts) + r.used
      ensures mode == old(mode)
    {
      if !client.hasAdapter {
        return -ENODEV;
      }
      err := SendWithRetries(WriteFrame(addr, val));
    }

    /** The do-while loop of sensor_write_reg: up to SENSOR_MAX_RETRIES + 1
        attempts, with a pause after each failed one. */
    method SendWithRetries(data: seq<u8>) returns (err: int)
      modifies this
      ensures var r := WriteAttempts(client, old(attempts), data, 0);
        err == r.err && trace == old(trace) + r.events && attempts == old(attempts) + r.used
      ensures mode == old(mode)
    {
      RetryLoopAttempts(client, attempts, data, 0, trace);
      ghost var whole := RetryLoop(client, attempts, data, 0, trace);
      var retry: nat := 0;
      while true
        invariant retry <= SENSOR_MAX_RETRIES
        invariant RetryLoop(client, attempts, data, retry, trace) == whole
        invariant mode == old(mode)
        decreases SENSOR_MAX_RETRIES - retry
      {
        err := I2cTransfer([WriteMsg(data)]);
        if err == 1 {
          return 0;
        }
        retry := retry + 1;
        Pause(RETRY_SLEEP_MS);
        if retry > SENSOR_MAX_RETRIES {
          return err;
        }
      }
    }

    /** sensor_write_table: entries up to the end marker, pausing at WAIT
        entries and stopping at the first write that fails. */
    method WriteTable(t: seq<Reg>) returns (err: int)
      requires Terminated(t)
      modifies this
      ensures var r := TableRun(client, old(attempts), t, 0);
        err == r.err && trace == old(trace) + r.events && attempts == old(attempts) + r.used
      ensures mode == old(mode)
    {
      ghost var whole := TableRun(client, attempts, t, 0);
      var i := 0;
      while t[i].addr != SENSOR_TABLE_END
        invariant HasEndFrom(t, i)
        invariant var r := TableRun(client, attempts, t, i);
          && whole.err == r.err
          && old(trace) + whole.events == trace + r.events
          && old(attempts) + whole.used == attempts + r.used
        invariant mode == old(mode)
        decreases |t| - i
      {
        ghost var sent := trace;
        if t[i].addr == SENSOR_WAIT_MS {
          ghost var rest := TableRun(client, attempts, t, i + 1);
          ghost var pause := [Sleep(t[i].val as nat)];
          assert TableRun(client, attempts, t, i) == Run(rest.err, pause + rest.events, rest.used);
          Pause(t[i].val as nat);
          assert sent + (pause + rest.events) == trace + rest.events;
          i := i + 1;
          continue;
        }
        ghost var n := attempts;
        ghost var w := WriteRegRun(client, n, t[i].addr, t[i].val);
        err := WriteReg(t[i].addr, t[i].val);
        if err != 0 {
          assert TableRun(client, n, t, i) == w;
          return err;
        }
        ghost var rest := TableRun(client, attempts, t, i + 1);
        assert TableRun(client, n, t, i) == Run(rest.err, w.events + rest.events, w.used + rest.used);
        assert sent + (w.events + rest.events) == trace + rest.events;
        i := i + 1;
      }
      return 0;
    }

    /** sensor_set_mode; stale is what the local holding register 0x0000
        contains if the read of it fails. */
    method SetMode(xres: int, yres: int, stale: u16) returns (err: int)
      requires Valid()
      modifies this
      ensures Valid()
      ensures var r := SetModeRun(client, pdata, tables, old(attempts), old(mode), stale, xres, yres);
        err == r.err && trace == old(trace) + r.events && attempts == old(attempts) + r.used && mode == r.mode
    {
      ghost var n := attempts;
      ghost var t0 := trace;
      var sensorTable := SelectTable(xres, yres);
      var val, firstErr := StartSetMode(sensorTable, stale);
      ghost var rd := ReadBack(client, n, stale);
      ghost var first := FirstWrite(client, tables, n, stale, sensorTable);
      ghost var d := SetModeDecide(client, pdata, tables, attempts, mode, sensorTable, val, firstErr);
      err := FinishSetMode(sensorTable, val, firstErr);
      ghost var events := ResetEvents(pdata, sensorTable) + rd.events + first.events + d.events;
      ConcatRegroup(t0, ResetEvents(pdata, sensorTable), rd.events, first.events, d.events);
      SetModeSteps(client, pdata, tables, n, old(mode), stale, xres, yres,
                   ModeRun(err, events, rd.used + first.used + d.used, mode));
    }

    /** The first half of sensor_set_mode: the board reset unless the
        table is 1600x1200, the read of register 0x0000 and the first
        write of the chosen table. */
    method StartSetMode(sensorTable: SensorMode, stale: u16) returns (val: u16, err: int)
      requires Valid()
      modifies this
      ensures Valid()
      ensures var rd := ReadBack(client, old(attempts), stale);
              var first := FirstWrite(client, tables, old(attempts), stale, sensorTable);
        && val == rd.val && err == first.err
        && trace == old(trace) + ResetEvents(pdata, sensorTable) + rd.events + first.events
        && attempts == old(attempts) + rd.used + first.used
      ensures mode == old(mode)
    {
      ghost var rd := ReadBack(client, attempts, stale);
      if sensorTable != Mode1600x1200 && pdata.Some? && pdata.value.reset {
        trace := trace + [Reset];
      }
      assert trace == old(trace) + ResetEvents(pdata, sensorTable);
      var _, v := ReadReg(0x0000, stale);
      val := v;
      assert val == rd.val && attempts == old(attempts) + rd.used;
      err := WriteTable(ModeTable(tables, sensorTable));
    }

    /** The second half of sensor_set_mode, after the first write of the
        chosen table returned firstErr; val is the value read back. */
    method FinishSetMode(sensorTable: SensorMode, val: u16, firstErr: int) returns (err: int)
      requires Valid()
      modifies this
      ensures Valid()
      ensures var d := SetModeDecide(client, pdata, tables, old(attempts), old(mode), sensorTable, val, firstErr);
        err == d.err && trace == old(trace) + d.events && attempts == old(attempts) + d.used && mode == d.mode
    {
      if firstErr != 0 {
        if pdata.Some? && pdata.value.powerOff {
          trace := trace + [PowerOff];
        }
        Pause(POWER_OFF_DELAY_MS);
        mode := -1;
        return firstErr;
      }
      if !Programmed(val) && sensorTable == Mode1600x1200 {
        err := WriteTable(tables.ctsZoomTest);
        mode := ModeIndex(sensorTable);
        return 0;
      }
      if !FastSwitch(val, sensorTable) {
        err := WriteTable(ModeTable(tables, sensorTable));
        if err != 0 {
          return err;
        }
      }
      mode := ModeIndex(sensorTable);
      return 0;
    }

    /** The table write of a colour effect, white balance or exposure
        case; a byte with no table writes nothing. */
    method WriteSelected(table: Option<seq<Reg>>) returns (err: int)
      requires table.Some? ==> Terminated(table.value)
      modifies this
      ensures var r := OptionalTableRun(client, old(attempts), old(mode), table);
        err == r.err && trace == old(trace) + r.events && attempts == old(attempts) + r.used
      ensures mode == old(mode)
    {
      err := 0;
      if table.Some? {
        err := WriteTable(table.value);
      }
      if err != 0 {
        return err;
      }
      return 0;
    }

    /** sensor_ioctl. */
    method Ioctl(cmd: Command, stale: u16) returns (err: int)
      requires Valid()
      modifies this
      ensures Valid()
      ensures var r := IoctlRun(client, pdata, tables, old(attempts), old(mode), stale, cmd);
        err == r.err && trace == old(trace) + r.events && attempts == old(attempts) + r.used && mode == r.mode
    {
      match cmd
      case SetModeCmd(req) =>
        if req.None? {
          return -EFAULT;
        }
        err := SetMode(req.value.xres, req.value.yres, stale);
      case GetStatus =>
        return 0;
      case SetColorEffect(b) =>
        if b.None? {
          return -EFAULT;
        }
        err := WriteSelected(ColorEffectTable(b.value));
      case SetWhiteBalance(b) =>
        if b.None? {
          return -EFAULT;
        }
        err := WriteSelected(WhitebalanceTable(b.value));
      case SetSceneMode =>
        return 0;
      case SetExposure(b) =>
        if b.None? {
          return -EFAULT;
        }
        err := WriteSelected(ExposureTable(b.value));
      case Unsupported =>
        return -EINVAL;
    }

    /** sensor_open: powers the sensor on through the board callback. */
    method Open() returns (err: int)
      requires Valid()
      modifies this
      ensures Valid()
      ensures err == 0 && trace == old(trace) + PowerOnEvents(pdata)
      ensures attempts == old(attempts) && mode == old(mode)
    {
      if pdata.Some? && pdata.value.powerOn {
        trace := trace + [PowerOn];
      }
      return 0;
    }

    /** sensor_release. */
    method Release() returns (err: int)
      requires Valid()
      modifies this
      ensures Valid()
      ensures var r := ReleaseRun(pdata, old(mode));
        err == r.err && trace == old(trace) + r.events && attempts == old(attempts) + r.used && mode == r.mode
    {
      if mode == -1 {
        return 0;
      }
      if pdata.Some? && pdata.value.powerOff {
        trace := trace + [PowerOff];
      }
      mode := -1;
      return 0;
    }
  }
}
