# DRV8711 motor-driver firmware, modelled in Dafny

This project models the two firmware layers that drive a robot's brushed
motors through a TI DRV8711 gate driver:

- **Register layer (`DRV8711`).** Each 16-bit SPI frame carries a
  read/write bit, a 3-bit register address and a 12-bit payload. Sixteen
  field setters each do one read-modify-write of one of the
  chip's eight 12-bit registers. The layer also has the STATUS fault-flag
  check/clear accessors, the current-limit-to-torque conversion and the
  fixed default brushed-motor profile.
- **Motor layer (`Motors`).** It has:
  - the speed clamp;
  - the forward/backward choice of which PWM channel is forced low and which
    gets the duty cycle;
  - the brake mode mapped to a decay mode;
  - the current-limit clamp, which also keeps the raw request;
  - the periodic fault poll, which either re-configures a chip that stopped
    answering or reports and clears latched faults.

The chip is an abstract register file: address 0..7 maps to a 12-bit value.
A `connected` flag models a chip that does not answer: every read then
returns all ones and every write is lost. No operation changes the flag. A bus records every frame sent,
so contracts can say which reads and writes an operation issues. Operations
pass the bus in and out. The firmware's two globals, the driver and the
stored current limit, are fields of the `Controller` state. Speeds and currents
are reals.

Files:

- `registers.dfy`: module `Registers`, the register map, the field
  descriptors, the enumeration codes and the STATUS flags.
- `spi.dfy`: module `Spi`, the frame layout, the chip's response, and
  `writeRegister`/`readRegister`.
- `drv8711.dfy`: module `Drv8711`, the setters, flags, current limit,
  default profile and the intent of the self-checks.
- `motors.dfy`: module `Motors`, the motor layer.

Composite operations are stated through edit lists. An `Edit` is one
read-modify-write: a register, the bits it clears and the bits it sets.
`Performed(b, b', es)` says that the bus went from `b` to `b'` by exactly
the read-modify-writes `es`:

- the trace grew by `EditFrames(chip, es)`: for each edit, in order, the
  read of its register and then the write of the merged value, computed
  from what that read returned (all ones on a disconnected chip);
- a connected chip holds `ApplyEdits(regs, es)`;
- a disconnected chip is unchanged.

The default profile, the current limit and the recovery path are each
proved to perform a named edit list. Separate lemmas then state the
register file each list produces.

Facts about the code that the contracts pin down:

- `setCurrentLimit(amps)` computes `(amps + 4) * 256 * 20 * 0.0025 / 2.75`,
  which is `(amps + 4) * 256 / 55`, so `setCurrentLimit(10)` writes the torque
  code 65. The firmware's own comment at RobotMotors/drv8711.cpp:456-461
  explains the 4 A offset and the x5 gain as found by experiment.
- Only currents above 50 A are rejected, because only those give a value
  above 255. A rejected current still leaves the gain forced to x5.
- Only `setSenseAmplifierGain` rejects an out-of-range code. The other
  setters mask the code without checking it. `setPWMMode` masks it to 8
  bits at offset 8, over a 1-bit field, so OFF bits 9-11 take the code's
  upper bits. Every other setter masks the code to its field's width.

## Model

| member | source | states |
|---|---|---|
| Registers.AddressesAreDistinct | RobotMotors/drv8711.h:7-131 | The eight register addresses CTRL..STATUS are the distinct values 0..7, so each fits the 3-bit address field of a frame. |
| Registers.CtrlFieldsDisjoint | RobotMotors/drv8711.h:9-26 | In CTRL, enable at bit 0, gain at bits 8-9 and dead time at bits 10-11 are contiguous, lie within 12 bits and do not overlap. |
| Registers.EnumCodesFitTheirFields | RobotMotors/drv8711.h:19-73 | Gain and dead-time codes are 0..3 and fit their 2-bit fields. Decay-mode codes are 0..5 and fit the 3-bit field. Stepper/brushed are 0/1 and fit the PWM-mode bit. |
| Registers.FieldTable | RobotMotors/drv8711.h:6-128 | Each of the sixteen named fields is a contiguous run of bits inside 12 bits. No two fields of the same register overlap, including the 8-bit fields at offset 0 and the fields at offset 8 in OFF, BLANK and DECAY. |
| Registers.DriveFields | RobotMotors/drv8711.h:80-128 | The six 2-bit DRIVE fields at offsets 0, 2, 4, 6, 8 and 10 are pairwise disjoint and together cover bits 0-11 exactly. |
| Registers.FlagBitsDistinct | RobotMotors/drv8711.h:130-147 | OTS, AOCP, BOCP, APDF, BPDF, UVLO, STD and STDLAT occupy the distinct STATUS bits 0..7. Each mask is `1 << bit`, and the masks of two different flags share no bit. |
| Spi.WriteFrame | RobotMotors/drv8711.cpp:35-37 | A write frame has bit 15 clear, and the chip decodes it as a write of `data & 0xFFF` to address `regAddress & 7`. |
| Spi.ReadFrame | RobotMotors/drv8711.cpp:49-51 | A read frame has bit 15 set and a zero payload, and the chip decodes it as a read of address `regAddress & 7`. |
| Spi.DecodeEncode | RobotMotors/drv8711.cpp:35-51 | Decoding the frame that carries a request gives back that request. |
| Spi.EncodeDecode | RobotMotors/drv8711.cpp:35-51 | Re-encoding the decoded request gives back the same frame, for every write frame and every read frame with a zero payload. |
| Spi.WriteRegister | RobotMotors/drv8711.cpp:35-47 | Sends exactly one write frame. A connected chip then stores `data & 0xFFF` at `regAddress & 7`, and nothing else changes. A disconnected chip keeps its registers. |
| Spi.ReadRegister | RobotMotors/drv8711.cpp:49-70 | Sends one read frame and changes no register. The result is at most 0xFFF: the stored register on a connected chip, 0xFFF on a disconnected one. |
| Spi.ReadAfterWrite | RobotMotors/drv8711.cpp:35-70 | Reading back a register just written yields the masked payload. A read of any other address is unaffected by the write. |
| Drv8711.ReadModifyWrite | RobotMotors/drv8711.cpp:120-132 | One read of the register, then one write to it of the value read with the field's bits cleared and the new bits ORed in. A connected chip ends up holding the merged value; a disconnected chip loses the write. |
| Drv8711.UpdateField | RobotMotors/drv8711.cpp:106-118 | A well-formed field ends up holding `code & mask`. Every other bit of its register and every other register are unchanged, and a disconnected chip is untouched. |
| Drv8711.SetMotorEnabled | RobotMotors/drv8711.cpp:72-85 | The ENBL bit becomes the argument. The rest of CTRL and all other registers are kept. |
| Drv8711.SetSenseAmplifierGain | RobotMotors/drv8711.cpp:87-104 | A code above 3 sends no frame and changes nothing. Any other code becomes the gain field, with the rest of CTRL and all other registers kept. |
| Drv8711.SetDeadTime | RobotMotors/drv8711.cpp:106-118 | The dead-time field becomes the code masked to 2 bits, with no range check. Everything else is kept. |
| Drv8711.SetTorque | RobotMotors/drv8711.cpp:120-132 | TORQUE bits 0-7 become the byte. Bits 8-11 and all other registers are kept. |
| Drv8711.SetOffTime | RobotMotors/drv8711.cpp:134-146 | OFF bits 0-7 (TOFF) become the byte. Everything else is kept. |
| Drv8711.SetPwmMode | RobotMotors/drv8711.cpp:148-160 | As written, the mask is 8 bits wide at offset 8. TOFF is kept, and OFF bits 8-11 become the low four bits of the mode code, so bits 9-11 are cleared for either mode. |
| Drv8711.SetBlankingTime | RobotMotors/drv8711.cpp:162-174 | BLANK bits 0-7 become the byte. Everything else is kept. |
| Drv8711.SetAdaptiveBlankingMode | RobotMotors/drv8711.cpp:176-188 | As written, it reads and writes address 0 (the TBLANK bit offset). CTRL bit 8 becomes the flag, which rewrites the low bit of the gain and keeps its high bit. BLANK is untouched. |
| Drv8711.AdaptiveBlankingHitsGain | RobotMotors/drv8711.cpp:176-188 | Counterexample: enabling adaptive blanking with gain x20 turns the gain into x40 and leaves the ABT bit clear. |
| Drv8711.SetAdaptiveBlankingModeIntended | RobotMotors/drv8711.cpp:176-188 | Corrected form: BLANK bit 8 becomes the flag, and CTRL and everything else are kept. |
| Drv8711.SetDecayTime | RobotMotors/drv8711.cpp:190-202 | DECAY bits 0-7 become the byte. Everything else is kept. |
| Drv8711.SetDecayMode | RobotMotors/drv8711.cpp:204-216 | DECAY bits 8-10 become the code masked to 3 bits, with no range check. Everything else is kept. |
| Drv8711.SetOverCurrentThreshold | RobotMotors/drv8711.cpp:218-230 | DRIVE bits 0-1 become the code masked to 2 bits. Everything else is kept. |
| Drv8711.SetOverCurrentDeglitch | RobotMotors/drv8711.cpp:233-245 | DRIVE bits 2-3 become the code masked to 2 bits. Everything else is kept. |
| Drv8711.SetLowSideGateDriveTime | RobotMotors/drv8711.cpp:248-260 | DRIVE bits 4-5 become the code masked to 2 bits. Everything else is kept. |
| Drv8711.SetHighSideGateDriveTime | RobotMotors/drv8711.cpp:263-275 | DRIVE bits 6-7 become the code masked to 2 bits. Everything else is kept. |
| Drv8711.SetLowSideGatePeakCurrent | RobotMotors/drv8711.cpp:277-289 | DRIVE bits 8-9 become the code masked to 2 bits. Everything else is kept. |
| Drv8711.SetHighSideGatePeakCurrent | RobotMotors/drv8711.cpp:291-303 | DRIVE bits 10-11 become the code masked to 2 bits. Everything else is kept. |
| Drv8711.CheckFlag | RobotMotors/drv8711.cpp:305-379 | `check<Flag>` sends one STATUS read and changes nothing. It returns true exactly when the flag's bit is set, and always true on a disconnected chip. |
| Drv8711.BitTest | RobotMotors/drv8711.cpp:305-308 | Testing `(status >> bit) & 1` agrees with testing the flag's mask. |
| Drv8711.ClearFlag | RobotMotors/drv8711.cpp:310-385 | `clear<Flag>` (there is none for STD) is one read-modify-write of STATUS. The flag then reads clear on a connected chip, and every other flag reads as before. |
| Drv8711.ClearFlagEffect | RobotMotors/drv8711.cpp:310-385 | When STATUS loses exactly one flag's bit, that flag reads clear and every other flag reads as before; a disconnected chip reads every flag as before. |
| Drv8711.PrintStatus | RobotMotors/drv8711.cpp:387-396 | `printStatus` sends eight STATUS reads and changes no register. Its report lists each flag's state in the order OTS..STDLAT. |
| Drv8711.TorqueValueAgreesWithCode | RobotMotors/drv8711.cpp:462-475 | The torque value `(amps + 4) * 256 * 20 * 0.0025 / 2.75` is at most 255 exactly when amps is at most 50. Its truncation is then the integer code `(amps + 4) * 256 / 55`, which lies in 0..251. |
| Drv8711.TorqueValueAwayFromIntegers | RobotMotors/drv8711.cpp:464-473 | For every accepted current the exact torque value is at least 1/55 away from an integer, so a small rounding error cannot change the truncated code. |
| Drv8711.TorqueByteIsCode | RobotMotors/drv8711.cpp:473 | The byte the driver writes for an accepted current is the integer torque code. |
| Drv8711.SetCurrentLimit | RobotMotors/drv8711.cpp:453-476 | Performs the gain edit (x5), then the torque edit only when the current is accepted. It sends two or four frames accordingly. |
| Drv8711.CurrentLimitGain | RobotMotors/drv8711.cpp:462 | After `setCurrentLimit` the gain reads x5 and the rest of CTRL is kept, whether or not the current was accepted. |
| Drv8711.CurrentLimitAccepted | RobotMotors/drv8711.cpp:464-475 | For amps at most 50, TORQUE bits 0-7 hold `(amps + 4) * 256 / 55` (65 for 10 A) and bits 8-11 are kept. |
| Drv8711.CurrentLimitRejected | RobotMotors/drv8711.cpp:466-471 | For amps above 50, TORQUE is unchanged. |
| Drv8711.CurrentLimitKeepsOthers | RobotMotors/drv8711.cpp:453-476 | `setCurrentLimit` touches no register other than CTRL and TORQUE. |
| Drv8711.DefaultBrushedMotorProfile | RobotMotors/drv8711.cpp:410-451 | Performs the profile's fourteen read-modify-writes in source order, counting the two of `setCurrentLimit(10)`. Every frame is stated: each read and each write with the value computed from that read, on a connected or a disconnected chip. |
| Drv8711.ProfileReachesTarget | RobotMotors/drv8711.cpp:410-451 | From any prior state the profile leaves DRIVE = 0xFAC and OFF = 0x1C8. TORQUE byte becomes 65, the BLANK byte 255 and the DECAY mode 2. In CTRL, dead time becomes 3, gain 0 and enable 1, while bits 1-7 are kept. The other bits of TORQUE, BLANK and DECAY are kept, and STALL and STATUS are untouched. |
| Drv8711.ProfileTargetSettings | RobotMotors/drv8711.cpp:410-451 | In that result every field the profile names holds its named setting: 850 ns, x5, enabled, 10 A, TOFF 200, brushed, blanking 255, fast decay, 250 mV, 8 us, 1000 ns twice, 400 mA and 200 mA. |
| Drv8711.ProfileIdempotent | RobotMotors/drv8711.cpp:410-451 | Running the profile twice leaves the same register file as running it once. |
| Drv8711.TestMotorEnable | RobotMotors/drv8711.cpp:479-497 | Sends the frames of `setMotorEnabled(false)`, a CTRL read, those of `setMotorEnabled(true)` and a second CTRL read. With the intended comparisons it passes exactly when each read shows the enable bit just written, which happens exactly when the chip answers. |
| Drv8711.TestSetTorque | RobotMotors/drv8711.cpp:499-508 | Sends the frames of `setTorque(127)` and a TORQUE read. With the intended comparison it passes exactly when that read shows the byte 127, which happens exactly when the chip answers. |
| Drv8711.TestSetGain | RobotMotors/drv8711.cpp:510-523 | Sends the frames of `setSenseAmplifierGain(GAIN5)`, a CTRL read, those of `setSenseAmplifierGain(GAIN40)` and a second CTRL read. With the intended comparisons it passes exactly when each read shows the gain just written, which happens exactly when the chip answers. |
| Motors.ValidateSpeed | RobotMotors/robot_motors.cpp:45-55 | The result is the speed itself inside [-100, 100], 100 above the range and -100 below it. |
| Motors.ValidateSpeedNearest | RobotMotors/robot_motors.cpp:45-55 | The validated speed is the in-range speed closest to the request. |
| Motors.SetMotorForwardSpeed | RobotMotors/robot_motors.cpp:57-74 | Channel B of the motor's unit is forced low and channel A is driven, at `min(speed, 100)` for a non-negative speed. The right motor uses unit 0 and any other value unit 1; the other unit is unchanged. |
| Motors.SetMotorBackwardSpeed | RobotMotors/robot_motors.cpp:76-95 | Channel A is forced low and channel B is driven, at `min(-speed, 100)` for a non-positive speed. The other unit is unchanged. |
| Motors.SetMotorSpeed | RobotMotors/robot_motors.cpp:36-43 | For speed at least 0 the unit becomes (A driven at `min(speed, 100)`, B forced low). Otherwise it becomes (A forced low, B driven at `min(-speed, 100)`). Only the motor's own unit changes. |
| Motors.SetMotorSpeedSafe | RobotMotors/robot_motors.cpp:57-95 | After any speed request the unit drives exactly one direction, chosen by the sign, with a duty in [0, 100]. A safe PWM state, where no unit drives both ways, stays safe. |
| Motors.SetMotorSpeedDutyIsMagnitude | RobotMotors/robot_motors.cpp:57-95 | The driven duty is the magnitude of the request, capped at 100. |
| Motors.IdlePwmSafe | RobotMotors/robot_motors.cpp:18-19 | The start-up PWM state, every duty 0, is safe. |
| Motors.SetMotorBrakeMode | RobotMotors/robot_motors.cpp:97-104 | AUTO_BRAKE sets the DECAY mode to 2 (fast decay) and NEUTRAL sets it to 0 (slow decay); all other bits are kept. Any other value writes nothing. |
| Motors.ValidateCurrent | RobotMotors/robot_motors.cpp:106-116 | The result is the current itself inside [0, 20], 20 above the range and 0 (not 10) below it. |
| Motors.ValidateCurrentNearest | RobotMotors/robot_motors.cpp:106-116 | The validated current is the in-range current closest to the request. |
| Motors.LimitAmps | RobotMotors/robot_motors.cpp:120-121 | The byte passed to the driver is the validated current truncated to whole amperes, so it is at most 20. |
| Motors.MotorLimitAccepted | RobotMotors/robot_motors.cpp:118-122 | Every limit the motor layer passes is accepted by the driver, with a torque code of at most 111. |
| Motors.SetCurrentLimit | RobotMotors/robot_motors.cpp:118-122 | The raw, unclamped request is stored. The driver then performs the current-limit edits for the truncated validated current. |
| Motors.ClearStatus | RobotMotors/robot_motors.cpp:13 | `writeRegister(STATUS_REG_ADDR, 0)` sends one write frame, and a connected chip's STATUS becomes 0 with every other register kept. |
| Motors.Reconnect | RobotMotors/robot_motors.cpp:128-136 | Sends the STATUS := 0 write, then exactly the frames of the default profile, then those of `setCurrentLimit` for the stored limit. It holds for a chip that no longer answers as well. The stored limit and the PWM state are unchanged. |
| Motors.RecoveryReachesTarget | RobotMotors/robot_motors.cpp:128-136 | From any prior state a recovery leaves the profile's settings, the torque code of the stored limit and a clear STATUS. |
| Motors.ResetIfFaulted | RobotMotors/robot_motors.cpp:137-143 | After a STATUS read that is not 0 come eight STATUS reads (the report) and one STATUS := 0 write, and no other register changes. After a STATUS read of 0 nothing more is sent. |
| Motors.ClearFaults | RobotMotors/robot_motors.cpp:139-141 | Eight STATUS reads, then one write of STATUS := 0. Only STATUS changes, and only on a connected chip. |
| Motors.CheckFaults | RobotMotors/robot_motors.cpp:124-144 | The whole trace of each branch. STALL reading 0xFFF leads to the STALL read plus the recovery frames, whether or not the chip answers. A non-zero STATUS leads to the STALL and STATUS reads, eight report reads and the STATUS := 0 write. Otherwise exactly the two reads are sent. The PWM state and the stored limit are never changed. |
| Motors.LostChipRecovers | RobotMotors/robot_motors.cpp:125-128 | A chip that does not answer is classified for recovery. By the contract of `CheckFaults` it then receives every recovery frame. |
| Motors.HealthyChipUntouched | RobotMotors/robot_motors.cpp:128-137 | A connected chip with STALL not all ones and a clear STATUS receives no write. |
| Motors.Init | RobotMotors/robot_motors.cpp:6-14 | The first frame is the STATUS := 0 write, followed by exactly the frames of the default profile. The stored limit starts at 10 A and the PWM outputs start idle. |
| Motors.InitReachesTarget | RobotMotors/robot_motors.cpp:11-14 | After `init` the chip holds the profile's settings with STATUS clear, and the torque code is 65. |

## Left out

- SPI and GPIO plumbing is replaced by the abstract chip: `DRV8711::init` (RobotMotors/drv8711.cpp:16-33), chip-select toggling and `transfer16`. A frame is exchanged atomically.
- The ESP32 MCPWM setup, `mcpwm_gpio_init` and the duty-type calls (RobotMotors/robot_motors.cpp:16-32) are left out. Only the initial zero duty of every channel and the forced-low/duty state of each channel are kept.
- Serial output is left out: the messages of `printStatus`, `printRegister`, `printUINT16Binary`, and every warning and error line. `printStatus` is kept only for its eight STATUS reads. `delay(1000)` is timing only.
- Floating point is modelled as exact reals, with NaN and infinities excluded. `Drv8711.TorqueValueAwayFromIntegers` bounds how far the exact torque value lies from an integer; the float rounding error itself is not modelled.
- Motors.LimitAmps: `(uint8_t)` of a float is modelled as truncation of an exact real in [0, 20], which is the only range the caller produces.
- Whether the chip answers is fixed for the length of an operation. A chip that stops answering partway through the default profile, a recovery or any other multi-frame operation is not modelled.
- Chip physics is left out: faults re-latching, STD driven by hardware, and the effect of register values on the bridge. Registers are plain memory.
- Drv8711.TestMotorEnable: models the intended readback of the self-check. The comparison as written at RobotMotors/drv8711.cpp:486 and 495 parses as `(0 != ctrlReg) & 1` and `(1 != ctrlReg) & 1`, which is not modelled.
- Drv8711.TestSetTorque: models the intended readback. The comparison as written at RobotMotors/drv8711.cpp:506 parses as `(127 != torqueReg) & 0xFF`, which is not modelled.
- Drv8711.TestSetGain: models the intended readback. The comparisons as written at RobotMotors/drv8711.cpp:515 and 520 compare the whole shifted CTRL value with the code before masking, which is not modelled.
- The `MOTOR` and `BRAKE_MODE` enums (RobotMotors/robot_motors.h:21-29) are plain integers. Any value other than `RIGHT_MOTOR` selects unit 1, and any brake mode other than the two named ones writes nothing, as in the code.
- The empty constructors `DRV8711::DRV8711` and `Motors::Motors` have no behaviour.

## Findings

| source | as written | input that shows it | evidently intended | confidence | as-written member | corrected member |
|---|---|---|---|---|---|---|
| RobotMotors/drv8711.cpp:178-187 | `readRegister(BLANK_TBLANK_BIT)` and `writeRegister(BLANK_TBLANK_BIT, …)` address register 0 (CTRL), so bit 8 of CTRL, the low gain bit, is rewritten | gain x20 (CTRL = 0x200), `setAdaptiveBlankingMode(true)`: the gain becomes x40 and BLANK's ABT bit stays 0 | address `BLANK_REG_ADDR` (3), so ABT in BLANK bit 8 is set and CTRL is kept | not executed; high | Drv8711.AdaptiveBlankingHitsGain | Drv8711.SetAdaptiveBlankingModeIntended |
