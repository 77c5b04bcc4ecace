# Obstacle-avoiding robot: firmware and host monitor

This project models the STM32 firmware of a small four-wheel robot and the
host-side monitor that reads what the robot prints. The model is written in
Dafny and its properties are proved.

The firmware is built around a six-state behaviour machine: IDLE, SCAN,
DECIDE, MOVE, ALERT and REVERSE.
- In automatic mode the pan servo sweeps between 30 and 150 degrees in steps
  of 10. At every step an ultrasonic reading is taken and the nearest nonzero
  distance is kept.
- At each end of the sweep the robot decides. It drives forward when the
  nearest obstacle is farther than 40 cm. Otherwise it raises an alert, turns
  away from the obstacle for more than 120 ms and starts a new sweep.
- One-letter commands received on the UART switch between automatic and
  manual driving.

Around that machine the firmware drives these peripherals:
- a buzzer that plays a tune as a non-blocking phase machine;
- a status LED;
- the H-bridge of the four wheels;
- a 16x2 character display behind an I2C expander;
- a colour display on SPI, which shows a face that blinks and changes
  expression when the state changes.

On the host, server.js cuts the serial text into lines on "\r\n". It then
pulls the state, angle, distance, minimum and mode out of each line with
regular expressions.

## How the model is organised

There is one module per source file:

| module | models |
|---|---|
| RobotStates | robot_state.c |
| Servo | servo.c |
| RgbLed | rgb_led.c |
| Motor | motor.c |
| Ultrasonic | ultrasonic.c |
| Eyes | the contract of eyes.h |
| Anim | anim.c |
| Tones | buzzer.c |
| Ui | ui_fsm.c |
| CharLcd | the HD44780 byte encoding in main.c |
| St7735 | lcd_st7735.c |
| Control and Firmware | main.c |
| HostLink | server.js |

Ticks holds the fixed-width integer types and the wrap-safe elapsed time
`(now - since) mod 2^32`. Decimal holds printf's `%d` and `%3d`.

Code that changes state is modelled as classes whose fields are the C
statics. Each method is proved to produce the value of a pure function of
the old state. The properties are proved as lemmas about those functions.

main.c is modelled twice:
- Module Control describes its globals, its loop statics and every
  peripheral as one value (`World`), with one function per command and per
  step of an iteration of the main loop.
- Class `Firmware.Robot` holds the driver objects and runs `Handle_Command`
  and one loop iteration step by step. Each of its methods is proved to
  produce the `World` that the Control functions give.

The host's `data` handler and `parseSTM32Response` are modelled the same
way, by `HostLink.HostMonitor` over the functions `Receive` and `Parsed`.
Beyond that, lemmas connect the two sides: feeding the exact text the
firmware puts on the UART for a report or a command reply into the host
parser gives the telemetry those lemmas state.

Hardware access becomes state:
- GPIO writes are pin levels.
- SPI traffic is a log of chip-select, data/command and transmit events.
- I2C traffic is a log of expander bytes.
- UART output is a string.

`HAL_GetTick()` is an input `now`. Within one loop iteration every read of
`HAL_GetTick()` sees the same value. The echo timing and the two distance
readings of an iteration are inputs as well.

## Model

| member | source | states |
|---|---|---|
| RobotStates.StateToStr | Core/Src/main.c:161-173 | every state's printed name is 4 to 7 characters long |
| RobotStates.StateToStrInjective | Core/Src/main.c:161-173 | two states print the same name exactly when they are the same state, and every name is upper-case letters; the host can therefore tell the states apart |
| RobotStates.StateStore.constructor | Core/Src/robot_state.c:4 | the state starts as IDLE |
| RobotStates.StateStore.Init | Core/Src/robot_state.c:6-9 | RobotState_Init resets the state to IDLE |
| RobotStates.StateStore.Set | Core/Src/robot_state.c:11-14 | RobotState_Set stores the given state |
| RobotStates.StateStore.Get | Core/Src/robot_state.c:17-20 | RobotState_Get returns the stored state and changes nothing |
| RobotStates.SetThenGet | Core/Src/robot_state.c:11-20 | a Get after Set(s) returns s, and so does a second Get |
| Servo.Pulse | Core/Src/drivers/servo.c:20-28 | the compare value always lies in [25, 125], and every angle of 180 or more gives 125 (the clamp) |
| Servo.PulseLandmarks | Core/Src/drivers/servo.c:4-6 | angle 0 gives SERVO_MIN 25, 90 gives SERVO_CENTER 75 and 180 gives SERVO_MAX 125 |
| Servo.PulseMonotone | Core/Src/drivers/servo.c:24-25 | a larger angle never gives a shorter pulse |
| Servo.ServoDriver.constructor | Core/Src/main.c:652 | the compare register starts at 0 |
| Servo.ServoDriver.Init | Core/Src/drivers/servo.c:11-18 | Servo_Init leaves the compare value at the centre, 75 |
| Servo.ServoDriver.SetAngle | Core/Src/drivers/servo.c:20-28 | Servo_SetAngle writes the clamped pulse of the angle |
| RgbLed.LedFor | Core/Src/drivers/rgb_led.c:11-40 | blue is never lit; green is lit exactly for GREEN and ORANGE, red exactly for RED and ORANGE; any other colour leaves all three pins low |
| RgbLed.Led.constructor | Core/Src/main.c:729 | the three LED pins start low |
| RgbLed.Led.Off | Core/Src/drivers/rgb_led.c:42-48 | RGB_Off leaves all three pins low |
| RgbLed.Led.Init | Core/Src/drivers/rgb_led.c:6-9 | RGB_Init is RGB_Off |
| RgbLed.Led.Set | Core/Src/drivers/rgb_led.c:11-40 | whatever the pins were before, RGB_Set leaves the levels LedFor gives |
| Motor.DriveSets | Core/Src/drivers/motor.c:8-22 | a wheel helper gives the wheel the requested direction, never sets both of its pins, and touches no other wheel |
| Motor.MotorDriver.constructor | Core/Src/main.c:730-731 | all eight H-bridge pins start low |
| Motor.MotorDriver.DriveWheel | Core/Src/drivers/motor.c:8-70 | RF/RB/LF/LB write the two pins of one wheel as DriveSets describes |
| Motor.MotorDriver.Init | Core/Src/drivers/motor.c:76-79 | Motor_Init leaves what Motor_Stop leaves |
| Motor.MotorDriver.Stop | Core/Src/drivers/motor.c:81-87 | Motor_Stop leaves every wheel stopped |
| Motor.MotorDriver.Forward | Core/Src/drivers/motor.c:89-95 | Motor_Forward leaves all four wheels forward |
| Motor.MotorDriver.Backward | Core/Src/drivers/motor.c:97-103 | Motor_Backward leaves all four wheels backward |
| Motor.MotorDriver.Right | Core/Src/drivers/motor.c:105-111 | Motor_Right leaves the left wheels backward and the right wheels forward |
| Motor.MotorDriver.Left | Core/Src/drivers/motor.c:113-119 | Motor_Left leaves the left wheels forward and the right wheels backward |
| Motor.MotorDriver.Run | Core/Src/drivers/motor.c:76-119 | issuing any of the five maneuvers leaves the pins of that maneuver |
| Motor.ApplyMeetsIntent | Core/Src/drivers/motor.c:81-119 | after the pin writes of any maneuver, from any pin state, no wheel has both pins set and every wheel runs in the intended direction |
| Motor.LeftMirrorsRight | Core/Src/drivers/motor.c:105-119 | each wheel turns under Motor_Left the way its mirror wheel turns under Motor_Right |
| Motor.ApplyOverwrites | Core/Src/drivers/motor.c:81-119 | every maneuver writes all eight pins, so the result does not depend on the previous pins |
| Motor.OutputsMeetIntent | Core/Src/drivers/motor.c:81-119 | the pins a maneuver leaves never short a wheel and drive each wheel the intended way |
| Motor.StopResetsAll | Core/Src/drivers/motor.c:81-87 | Motor_Stop resets all eight pins, from any previous state |
| Ultrasonic.Counter | Core/Src/main.c:599 | TIM1 counts up by one per microsecond and wraps from 65535 to 0 |
| Ultrasonic.EchoToCm | Core/Src/drivers/ultrasonic.c:66-70 | a width below 240 us or above 23000 us gives 0; any other width gives floor(width * 0.017), which lies in [4, 391] |
| Ultrasonic.EchoWidth | Core/Src/drivers/ultrasonic.c:27-49 | echo_time_us returns either 0 or the width of the pulse |
| Ultrasonic.EchoTimeUs | Core/Src/drivers/ultrasonic.c:27-49 | for any starting counter value, the two polling loops return 0 on either timeout, and also when the counter wraps before the rising edge; otherwise they return the pulse width |
| Ultrasonic.DelayUs | Core/Src/drivers/ultrasonic.c:14-18 | delay_us resets TIM1 to 0 and returns once the counter has reached the requested number of microseconds |
| Ultrasonic.TrigPulse | Core/Src/drivers/ultrasonic.c:20-25 | trig_pulse raises and then lowers the trigger pin, and leaves TIM1 at 10 when echo timing starts |
| Ultrasonic.GetDistance | Core/Src/drivers/ultrasonic.c:59-71 | Ultrasonic_GetDistance sends the trigger pulse and gives the range-gated conversion of the width measured from the counter value the trigger leaves |
| Ultrasonic.NoWrapAfterTrigger | Core/Src/drivers/ultrasonic.c:16-36 | because the trigger pulse leaves TIM1 at 10, the counter cannot wrap before a timely rising edge: every echo that rises within 30001 us and lasts at most 30001 us is measured as its width, and every other echo as 0 |
| Ultrasonic.DistanceCharacterised | Core/Src/drivers/ultrasonic.c:59-71 | a reading is 0 or in [4, 391]; it is nonzero exactly when the echo rose within the timeout and its width lies in [240, 23000]; every echo rising and ending within the timeouts reads as EchoToCm of its width; a nonzero reading is width * 17 / 1000 rounded down |
| Ultrasonic.EchoToCmMonotone | Core/Src/drivers/ultrasonic.c:70 | within the accepted window a longer echo never gives a shorter distance |
| Eyes.Drawn | Core/Inc/drivers/eyes.h:24 | Eyes_Draw draws the given expression unconditionally and clears the dirty flag |
| Eyes.SetExpr | Core/Inc/drivers/eyes.h:25 | Eyes_SetExpression draws nothing; the flag becomes dirty exactly when the expression changes or was already dirty |
| Eyes.Refreshed | Core/Inc/drivers/eyes.h:27 | Eyes_Update draws the current expression only when dirty, and changes nothing otherwise |
| Eyes.Invalidated | Core/Inc/drivers/eyes.h:28 | Eyes_Invalidate draws nothing and marks the face dirty |
| Eyes.SetExprIdempotent | Core/Inc/drivers/eyes.h:25 | setting the same expression twice is the same as setting it once |
| Eyes.RefreshedIdempotent | Core/Inc/drivers/eyes.h:27 | a second update in a row draws nothing |
| Eyes.InvalidateForcesDraw | Core/Inc/drivers/eyes.h:27-28 | after an invalidation the next update draws the current expression |
| Eyes.SetThenUpdateShows | Core/Inc/drivers/eyes.h:25-27 | setting an expression and then updating leaves that expression on the display |
| Eyes.Renderer.constructor | Core/Inc/drivers/eyes.h:12-21 | the renderer starts from one of the eight expressions, Neutral, dirty and with nothing drawn |
| Eyes.Renderer.Draw | Core/Inc/drivers/eyes.h:24 | the object implements Drawn |
| Eyes.Renderer.SetExpression | Core/Inc/drivers/eyes.h:25 | the object implements SetExpr |
| Eyes.Renderer.GetExpression | Core/Inc/drivers/eyes.h:26 | Eyes_GetExpression returns the current expression and changes nothing |
| Eyes.Renderer.Update | Core/Inc/drivers/eyes.h:27 | the object implements Refreshed |
| Eyes.Renderer.Invalidate | Core/Inc/drivers/eyes.h:28 | the object implements Invalidated |
| Anim.BlinkStep | Core/Src/drivers/anim.c:51-82 | a blink starts at most every 3000 ms and never on Blink or Sleepy, and it saves the expression and draws Blink; a blink ends after 150 ms; when neither happens, no field and no drawing changes |
| Anim.AnimStep | Core/Src/drivers/anim.c:87-94 | Anim_Update is Blink_Update followed by Eyes_Update |
| Anim.AnimInit | Core/Src/drivers/anim.c:29-38 | Anim_Init leaves Neutral on the display, not dirty, and restarts the blink timer at now |
| Anim.NoBlinkWhileSleepy | Core/Src/drivers/anim.c:57-69 | while not blinking and Sleepy, Blink_Update changes nothing, and in particular the timer does not advance |
| Anim.BlinkRestores | Core/Src/drivers/anim.c:57-81 | a blink that starts and then ends draws Blink, then the expression saved at its start |
| Anim.BlinkTimer | Core/Src/drivers/anim.c:57-81 | Blink_Update changes the blinker only by starting or ending a blink, each time restarting the timer at now; a blink starts only 3000 ms after the previous one ended, and ends only 150 ms after it started |
| Anim.StaleRestore | Core/Src/drivers/anim.c:72-81 | the end of a blink restores the snapshot, even when the expression was changed during the blink |
| Anim.Animator.constructor | Core/Src/drivers/anim.c:21-23 | the statics start not blinking, at tick 0, with Neutral saved |
| Anim.Animator.Init | Core/Src/drivers/anim.c:29-38 | the object implements AnimInit |
| Anim.Animator.Set | Core/Src/drivers/anim.c:43-46 | Anim_Set is only the lazy expression change |
| Anim.Animator.BlinkUpdate | Core/Src/drivers/anim.c:51-82 | the object implements BlinkStep |
| Anim.Animator.Update | Core/Src/drivers/anim.c:87-94 | the object implements AnimStep |
| Tones.StopIndexFrom | Core/Src/drivers/buzzer.c:134-152 | the first index at or after `from` where playback stops: every note before it has a nonzero on-time, and it is the length or a note with a zero on-time |
| Tones.PlayLimit | Core/Src/drivers/buzzer.c:134-152 | the notes a melody sounds: at least the first, all with nonzero on-times, ending at the length or at the first later zero on-time |
| Tones.Play | Core/Src/drivers/buzzer.c:75-86 | a NULL melody or a zero length changes nothing; anything else restarts playback at index 0 in phase 1 at now with the pin high, and it keeps the invariant |
| Tones.Stopped | Core/Src/drivers/buzzer.c:103-110 | Buzzer_Stop leaves the pin low, a NULL melody, zero length, index and phase, and the tick unchanged; it is not playing |
| Tones.Updated | Core/Src/drivers/buzzer.c:117-153 | Buzzer_Update keeps the invariant: the pin is high exactly in phase 1, and the index stays below the length and within the sounding notes |
| Tones.UpdateIdle | Core/Src/drivers/buzzer.c:119-120 | Buzzer_Update does nothing while idle |
| Tones.UpdateSounding | Core/Src/drivers/buzzer.c:125-133 | phase 1 never changes the melody, its length or the index, and never stops playback; it moves to phase 2 exactly when the on-time has elapsed, with the pin low and the rest timed from now, and otherwise changes nothing |
| Tones.UpdateResting | Core/Src/drivers/buzzer.c:134-152 | phase 2 changes nothing before the off-time has elapsed; afterwards playback stops exactly when the next entry is past the length or has a zero on-time, and otherwise the same melody goes on at the very next index, sounding from now |
| Tones.MarioPlaysThree | Core/Src/drivers/buzzer.c:15-48 | mario_short sounds exactly its first three notes |
| Tones.AlertPlaysOne | Core/Src/drivers/buzzer.c:51-56 | melody_alert sounds exactly its first note |
| Tones.PlayingIndexBound | Core/Src/drivers/buzzer.c:134-152 | while mario_short plays the index stays below 3, and while melody_alert plays it stays 0 |
| Tones.MarioThirdRestStops | Core/Src/drivers/buzzer.c:136-144 | the end of the rest after mario_short's third note stops playback |
| Tones.Buzzer.constructor | Core/Src/drivers/buzzer.c:59-63 | the statics start silent and the pin starts low |
| Tones.Buzzer.On | Core/Src/drivers/buzzer.c:65-68 | Buzzer_On raises the pin and nothing else |
| Tones.Buzzer.Off | Core/Src/drivers/buzzer.c:70-73 | Buzzer_Off lowers the pin and nothing else |
| Tones.Buzzer.PlayMelody | Core/Src/drivers/buzzer.c:75-86 | the object implements Play |
| Tones.Buzzer.PlayAlert | Core/Src/drivers/buzzer.c:93-96 | Buzzer_PlayAlert plays melody_alert with its length 4 |
| Tones.Buzzer.PlayMario | Core/Src/drivers/buzzer.c:98-101 | Buzzer_PlayMario plays mario_short with its length 29 |
| Tones.Buzzer.Stop | Core/Src/drivers/buzzer.c:103-110 | the object implements Stopped |
| Tones.Buzzer.IsPlaying | Core/Src/drivers/buzzer.c:112-115 | Buzzer_IsPlaying is true exactly when the phase is not 0 |
| Tones.Buzzer.Update | Core/Src/drivers/buzzer.c:117-153 | the object implements Updated |
| Ui.Bytes | Core/Src/ui_fsm.c:95 | a line goes to LCD_PUTS as one byte per character, its low eight bits |
| Ui.AutoLineNamesState | Core/Src/ui_fsm.c:61-73 | with start_flag 1, line 1 is "AUTO : " and the name StateToStr prints, padded with spaces to 14 columns |
| Ui.Line1Fits | Core/Src/ui_fsm.c:61-89 | line 1 is always 14 or 15 printable characters, so it fits the 17-byte buffer |
| Ui.AutoLineFits | Core/Src/ui_fsm.c:61-73 | every automatic-mode line 1 is 14 printable characters |
| Ui.ManualLineFits | Core/Src/ui_fsm.c:74-85 | every manual-mode line 1, the STOP default included, is 14 or 15 printable characters |
| Ui.Line2Fits | Core/Src/ui_fsm.c:91-92 | line 2 is at most 16 characters for any 16-bit distance and any angle, and exactly 14 below 1000 cm |
| Ui.Line2Printable | Core/Src/ui_fsm.c:91-92 | every character of line 2, the degree sign 0xDF included, is a single byte other than NUL |
| Ui.LcdShowsLines | Core/Src/ui_fsm.c:94-97 | the controller receives: DDRAM address 0x80, line 1 as data, address 0xC0, line 2 as data |
| Ui.PutsData | Core/Src/ui_fsm.c:95 | LCD_PUTS of a printable line delivers every character, in order, as a data byte |
| Ui.XyDecoded | Core/Src/ui_fsm.c:94-96 | LCD_XY(0, 0) and LCD_XY(0, 1) are the single commands 0x80 and 0xC0 |
| Ui.NoNul | Core/Src/ui_fsm.c:95 | a printable line holds no NUL, so LCD_PUTS sends all of it |
| Ui.Coordinator.constructor | Core/Src/ui_fsm.c:13 | prev_state starts as IDLE |
| Ui.Coordinator.Init | Core/Src/ui_fsm.c:15-20 | UI_Init clears the colour display to black, selects Sleepy and records the current state as prev_state |
| Ui.Coordinator.React | Core/Src/ui_fsm.c:30-58 | the edge handling of UI_Update: the face becomes FaceAfter and prev_state becomes the state |
| Ui.Coordinator.Update | Core/Src/ui_fsm.c:22-98 | UI_Update does the edge handling, then writes line 1 and line 2 of the given flags, distance and angle to the character display |
| Ui.ShowLines | Core/Src/ui_fsm.c:94-97 | the four display calls of UI_Update append exactly the bytes LcdShowsLines decodes |
| Ui.FaceOnEdges | Core/Src/ui_fsm.c:30-58 | the expression changes only on a state edge, to Sleepy, LookLeft, Happy, Angry or Sad for IDLE, SCAN, MOVE, ALERT and REVERSE; DECIDE changes nothing; nothing is drawn |
| CharLcd.TextLength | Core/Src/main.c:153-155 | the index of the first NUL of a C string, or its length when there is none |
| CharLcd.Encoded | Core/Src/main.c:153-155 | a run of characters takes four expander bytes each |
| CharLcd.TransferShape | Core/Src/main.c:93-117 | a controller byte goes out as its high nibble with EN high and then low, then its low nibble the same way; the backlight is always on and RS is as requested; the controller rebuilds exactly the byte |
| CharLcd.TransferDecodes | Core/Src/main.c:93-117 | the four expander bytes of LCD_DATA or LCD_CMD decode to the register and the byte sent |
| CharLcd.DecodeAllConcat | Core/Src/main.c:93-117 | decoding works piecewise over whole transfers |
| CharLcd.DecodeEncoded | Core/Src/main.c:93-104 | a run of characters sent as data decodes to the same characters, in order |
| CharLcd.PutsRoundTrip | Core/Src/main.c:153-155 | the controller receives the string of LCD_PUTS up to its NUL, one data byte per character, in order |
| CharLcd.XyCommand | Core/Src/main.c:141-146 | LCD_XY for rows 0 to 3 sends the single command 0x80, 0xC0, 0x94 or 0xD4 plus the column |
| CharLcd.I2cLcd.constructor | Core/Src/main.c:46 | nothing has been written to the I2C bus yet |
| CharLcd.I2cLcd.Send | Core/Src/main.c:95 | one I2C write appends one expander byte |
| CharLcd.I2cLcd.Write | Core/Src/main.c:93-117 | the shared body of LCD_DATA and LCD_CMD sends the transfer TransferShape describes |
| CharLcd.I2cLcd.Data | Core/Src/main.c:93-104 | LCD_DATA sends the byte with RS high |
| CharLcd.I2cLcd.Cmd | Core/Src/main.c:106-117 | LCD_CMD sends the byte with RS low |
| CharLcd.I2cLcd.Cmd4bit | Core/Src/main.c:119-125 | LCD_CMD_4bit strobes only the low nibble of its argument, as a command |
| CharLcd.I2cLcd.Xy | Core/Src/main.c:141-146 | LCD_XY sends the address command of the row, and nothing for rows above 3 |
| CharLcd.I2cLcd.Puts | Core/Src/main.c:153-155 | LCD_PUTS sends every character before the NUL as data |
| Decimal.DigitChar | Core/Src/main.c:429-430 | a digit value becomes the digit character of that value |
| Decimal.Digits | Core/Src/main.c:457-458 | `%d` of a non-negative value is a non-empty run of digits with a leading zero only for 0 |
| Decimal.ValueDigits | Core/Src/main.c:457-458 | reading back what `%d` printed gives the printed value |
| Decimal.DigitsLength | Core/Src/main.c:457-458 | a value below 10^k prints at most k digits |
| Decimal.PaddedShape | Core/Src/main.c:429-430 | `%3d` is at least three wide, space-padded on the left, and ends in the `%d` digits |
| Decimal.Padded3 | Core/Src/ui_fsm.c:91-92 | `%3d` of a value below 1000 is exactly three characters |
| Decimal.Padded3Short | Core/Src/ui_fsm.c:91-92 | `%3d` of a 16-bit value is at most five characters |
| Ticks.Elapsed | Core/Src/main.c:369 | `now - since` in uint32_t arithmetic: the difference, plus 2^32 when the counter wrapped |
| Ticks.After | Core/Src/main.c:369-371 | the tick d milliseconds later, wrapping past 2^32 - 1 |
| Ticks.ElapsedAfter | Core/Src/main.c:420 | wrap-safety: the elapsed time to the tick d ms later is exactly d, across a wrap too |
| Ticks.ElapsedZero | Core/Src/main.c:369 | the elapsed time is 0 exactly at the same tick |
| St7735.Pixel | Core/Src/drivers/lcd_st7735.c:89-90 | an RGB565 word goes out as two bytes, high byte first, that rebuild the word |
| St7735.PixelBytes | Core/Src/drivers/lcd_st7735.c:135-136 | a run of pixels takes two bytes per pixel |
| St7735.Repeat | Core/Src/drivers/lcd_st7735.c:93-97 | n pixels of one colour |
| St7735.FullChunks | Core/Src/drivers/lcd_st7735.c:105-109 | k transmissions, each of the full 128-byte buffer of the colour |
| St7735.Display.constructor | Core/Src/drivers/lcd_st7735.c:39-40 | the 128-byte static transmit buffer exists and nothing has been sent |
| St7735.Display.Cmd | Core/Src/drivers/lcd_st7735.c:44-50 | LCD_Cmd sends one byte with DC low inside its own chip-select frame |
| St7735.Display.Data | Core/Src/drivers/lcd_st7735.c:66-70 | a parameter block goes out with DC high inside its own chip-select frame |
| St7735.Display.SetWindow | Core/Src/drivers/lcd_st7735.c:62-82 | LCD_SetWindow sends CASET, the columns, RASET, the rows and RAMWR |
| St7735.Display.Fill | Core/Src/drivers/lcd_st7735.c:93-97 | the first loop of LCD_WriteColorFast fills the buffer with 64 copies of the colour, high byte first |
| St7735.Display.WriteColorFast | Core/Src/drivers/lcd_st7735.c:87-118 | LCD_WriteColorFast sends count / 64 full buffers and then the remainder, inside one chip-select frame |
| St7735.Display.LoadChunk | Core/Src/drivers/lcd_st7735.c:133-137 | the copy loop byte-swaps the chunk of pixels into the buffer |
| St7735.Display.SendChunk | Core/Src/drivers/lcd_st7735.c:131-141 | one pass of LCD_WriteBuffer's loop transmits the bytes of the next chunk of pixels |
| St7735.Display.SendPixels | Core/Src/drivers/lcd_st7735.c:129-142 | the loop of LCD_WriteBuffer sends the pixels in chunks of at most 64 |
| St7735.Display.WriteBuffer | Core/Src/drivers/lcd_st7735.c:123-145 | LCD_WriteBuffer sends the first count pixels, chunked, inside one chip-select frame |
| St7735.Display.Clear | Core/Src/drivers/lcd_st7735.c:147-151 | LCD_Clear frames the full panel and streams 160 x 80 pixels of the colour |
| St7735.BufferChunksStep | Core/Src/drivers/lcd_st7735.c:131-141 | each pass of LCD_WriteBuffer sends min(64, remaining) pixels |
| St7735.BufferChunksAt | Core/Src/drivers/lcd_st7735.c:140-141 | the chunk sent at a pixel offset is the next min(64, remaining) pixels, and the rest follows |
| St7735.PixelBytesIndex | Core/Src/drivers/lcd_st7735.c:135-136 | byte 2k of a pixel run is pixel k's high byte and byte 2k + 1 its low byte |
| St7735.PixelBytesConcat | Core/Src/drivers/lcd_st7735.c:140 | pixel runs convert piecewise |
| St7735.FullChunksPayload | Core/Src/drivers/lcd_st7735.c:105-109 | k full buffers carry the bytes of 64k pixels of the colour |
| St7735.ColorFastPayload | Core/Src/drivers/lcd_st7735.c:103-115 | LCD_WriteColorFast transmits exactly 2 * count bytes, the bytes of count pixels of the colour |
| St7735.ColorFastPairs | Core/Src/drivers/lcd_st7735.c:93-97 | every byte pair LCD_WriteColorFast sends is (color >> 8, color & 0xFF) |
| St7735.ColorFastChunking | Core/Src/drivers/lcd_st7735.c:103-115 | LCD_WriteColorFast makes floor(count / 64) transmissions of 128 bytes, then one of the remainder only when count mod 64 > 0 |
| St7735.BufferContents | Core/Src/drivers/lcd_st7735.c:129-142 | LCD_WriteBuffer's byte stream is the high and low byte of every pixel, in order |
| St7735.BufferChunkSizes | Core/Src/drivers/lcd_st7735.c:131-139 | every transmission of LCD_WriteBuffer is 1 to 128 bytes |
| St7735.FramedConcat | Core/Src/drivers/lcd_st7735.c:44-58 | framed logs stay framed when concatenated, so the driver's log stays framed |
| St7735.FrameFramed | Core/Src/drivers/lcd_st7735.c:44-58 | one chip-select frame around one transmission is framed |
| St7735.FramePayload | Core/Src/drivers/lcd_st7735.c:44-58 | one chip-select frame around one transmission carries exactly its bytes |
| St7735.ColorEventsFramed | Core/Src/drivers/lcd_st7735.c:99-117 | LCD_WriteColorFast drives CS low before its transmissions and high after them |
| St7735.BufferEventsFramed | Core/Src/drivers/lcd_st7735.c:125-144 | LCD_WriteBuffer drives CS low before its transmissions and high after them |
| St7735.WindowFramed | Core/Src/drivers/lcd_st7735.c:62-82 | LCD_SetWindow drives CS low before each of its five transmissions and high after each |
| St7735.WindowPayload | Core/Src/drivers/lcd_st7735.c:62-82 | LCD_SetWindow sends CASET [0, x0, 0, x1], then RASET [0, y0 + 26, 0, y1 + 26], each cut to 8 bits, then RAMWR |
| St7735.ClearCoversPanel | Core/Src/drivers/lcd_st7735.c:147-151 | LCD_Clear opens the window (0,0)-(159,79) and sends 12800 pixels in 200 transmissions |
| Control.Wire | Core/Src/main.c:181-187 | __io_putchar never drops a character and adds exactly one character per line feed; every line feed on the UART follows a carriage return |
| Control.WireConcat | Core/Src/main.c:181-187 | printing two texts in a row puts the same characters on the UART as printing them as one |
| Control.WireNoNewline | Core/Src/main.c:181-187 | a text without a line feed goes out unchanged |
| Control.WireLine | Core/Src/main.c:181-187 | every line printed with "\r\n" reaches the UART ending in "\r\r\n" |
| Control.CommandCaseInsensitive | Core/Src/main.c:205-278 | Handle_Command does not tell a letter from its capital |
| Control.CommandIgnoresOthers | Core/Src/main.c:205-278 | any byte other than t/x/w/s/a/d/r, in either case, changes nothing |
| Control.CommandEffects | Core/Src/main.c:205-278 | each command sets exactly the state, mode flags and manual_command of its case; 'a', 'd' and 'r' keep the state; 'r' keeps both flags; no command touches the sweep, the minimum, the timers or the ALERT statics |
| Control.CommandTune | Core/Src/main.c:209-269 | every command except 's' and 'r' silences the buzzer; 's' restarts mario_short; 'r' leaves the tune alone |
| Control.CommandWheels | Core/Src/main.c:218-276 | 'x' stops every wheel, 'w' drives all forward, 's' all backward, 'a' and 'd' turn left and right; 't' and 'r' leave the wheels; only 'r' centres the servo |
| Control.CommandReports | Core/Src/main.c:205-278 | every command prints exactly one line, its reply and "\r\r\n"; other bytes print nothing |
| Control.CommandPrints | Core/Src/main.c:205-278 | a command appends what __io_putchar makes of its reply and "\r\n" |
| Control.ReplyOneLine | Core/Src/main.c:214-274 | no reply contains a line feed |
| Control.PreludeFrame | Core/Src/main.c:361-406 | the part of an iteration before the start_flag gate keeps the state and every behaviour variable, prints nothing and leaves the servo; afterwards prevState is the state |
| Control.UiCadence | Core/Src/main.c:366-374 | the UI runs at most once per 50 ms; when it runs, the face follows the state edge and then the blink animator, and both lines reach the character display; otherwise nothing changes |
| Control.LedShowsState | Core/Src/main.c:280-300 | Set_LED_By_State never lights blue; green for SCAN and MOVE, red for ALERT, orange for DECIDE, dark for IDLE, whatever was lit before; REVERSE leaves the LED as it was |
| Control.ReverseBlinkPeriod | Core/Src/main.c:383-394 | the REVERSE blink turns orange at most once per 500 ms, moving its tick to now exactly then; from 250 ms to 500 ms the LED is dark; before 250 ms nothing changes |
| Control.GateHolds | Core/Src/main.c:408-411 | with start_flag clear an iteration is only its first half, so the behaviour switch changes neither the state nor its variables |
| Control.SweepBounces | Core/Src/main.c:438-451 | within [30, 150] the angle moves by 10 in its direction; a step reaching or passing an end is clamped to it, reverses the direction and reports the end; the angle never leaves [30, 150] |
| Control.TrackKeepsMinimum | Core/Src/main.c:432-436 | the minimum never grows; a zero reading or one no smaller than the minimum leaves minimum and angle alone |
| Control.TrackAllIsNearest | Core/Src/main.c:432-436 | after a run of readings the minimum is the nearest nonzero one (or the old minimum), kept with an angle at which it was read |
| Control.ScanCadence | Core/Src/main.c:418-454 | SCAN acts at most once per 40 ms of wrap-safe elapsed time; when it acts it points the servo, reports the reading, tracks the minimum and steps the sweep, entering DECIDE at either end |
| Control.DecideChooses | Core/Src/main.c:456-464 | DECIDE reports the minimum and goes to MOVE exactly when min_dist > 40, otherwise to ALERT |
| Control.MovePassesThrough | Core/Src/main.c:466-472 | MOVE reports, drives all wheels forward and returns to SCAN in the same iteration, keeping the minimum |
| Control.AlertToneOnEntry | Core/Src/main.c:376-406 | the alert tone starts on the iteration that enters ALERT and on no later one |
| Control.AlertTurns | Core/Src/main.c:492-504 | with no turn under way ALERT starts one at now, right when min_angle < 90 and left otherwise, and stays in ALERT |
| Control.AlertStepStarts | Core/Src/main.c:497-504 | starting the turn changes only the wheels, avoid_start and avoiding |
| Control.AlertExits | Core/Src/main.c:506-512 | with a turn under way ALERT is left exactly after more than 120 ms; leaving stops every wheel, resets min_dist to 999 and returns to SCAN |
| Control.InterruptedTurnPersists | Core/Src/main.c:494-513 | a command during a turn leaves avoiding set with the old start tick |
| Control.StaleTurnSkipsAvoidance | Core/Src/main.c:494-513 | re-entering ALERT with that stale flag starts no turn and, once the old tick is over 120 ms past, stops and returns to SCAN at once |
| Control.BootConsistent | Core/Src/main.c:334-352 | start-up leaves IDLE, start_flag clear, Sleepy, the servo centred and every reachable-state invariant holding |
| Control.CommandConsistent | Core/Src/main.c:205-278 | every command keeps the reachable-state invariant |
| Control.IterationConsistent | Core/Src/main.c:361-515 | every loop iteration keeps the reachable-state invariant: sweep within limits with a unit direction, 0/1 flags never both set, REVERSE only with start_flag clear |
| Control.BehaveConsistent | Core/Src/main.c:413-515 | the behaviour switch keeps the reachable-state invariant |
| Control.ReverseBehaviourUnreachable | Core/Src/main.c:474-490 | in a reachable state the REVERSE case of the behaviour switch never runs |
| Firmware.Robot.constructor | Core/Src/main.c:54-70 | the program starts with every static initialiser, as the power-on World |
| Firmware.Robot.Putchar | Core/Src/main.c:181-187 | __io_putchar puts a carriage return before each line feed |
| Firmware.Robot.Printf | Core/Src/main.c:181-187 | printf of a text, character by character, puts exactly Wire of the text on the UART |
| Firmware.Robot.PrintfLine | Core/Src/main.c:214 | printf of a text plus "\r\n" |
| Firmware.Robot.SetLedByState | Core/Src/main.c:280-300 | Set_LED_By_State leaves the LED as LedAfter says |
| Firmware.Robot.AutoStart | Core/Src/main.c:209-216 | the 't' case produces Control.AutoStart |
| Firmware.Robot.Halt | Core/Src/main.c:218-227 | the 'x' case produces Control.Halt |
| Firmware.Robot.ManualForward | Core/Src/main.c:229-238 | the 'w' case produces Control.ManualForward |
| Firmware.Robot.ManualBackward | Core/Src/main.c:240-249 | the 's' case produces Control.ManualBackward and keeps the buzzer invariant |
| Firmware.Robot.ManualLeft | Core/Src/main.c:251-259 | the 'a' case produces Control.ManualLeft |
| Firmware.Robot.ManualRight | Core/Src/main.c:261-269 | the 'd' case produces Control.ManualRight |
| Firmware.Robot.ServoReset | Core/Src/main.c:271-276 | the 'r' case produces Control.ServoReset |
| Firmware.Robot.HandleCommand | Core/Src/main.c:205-278 | Handle_Command produces Control.Command, whose properties CommandEffects, CommandTune, CommandWheels and CommandReports state |
| Firmware.Robot.BlinkReverse | Core/Src/main.c:383-394 | the REVERSE blink produces ReverseBlink |
| Firmware.Robot.UiTick | Core/Src/main.c:366-374 | the 50 ms UI tick produces Control.Refresh |
| Firmware.Robot.EdgeTick | Core/Src/main.c:376-406 | the entry-edge switch produces Control.OnEdge |
| Firmware.Robot.RunPrelude | Core/Src/main.c:361-406 | the first half of an iteration produces Control.Prelude |
| Firmware.Robot.TrackMinimum | Core/Src/main.c:432-436 | the minimum update produces Track |
| Firmware.Robot.StepSweep | Core/Src/main.c:438-451 | the sweep step produces Sweep |
| Firmware.Robot.ScanCase | Core/Src/main.c:418-454 | the SCAN case produces Control.ScanStep |
| Firmware.Robot.DecideCase | Core/Src/main.c:456-464 | the DECIDE case produces Control.DecideStep |
| Firmware.Robot.MoveCase | Core/Src/main.c:466-472 | the MOVE case produces Control.MoveStep |
| Firmware.Robot.ReverseCase | Core/Src/main.c:474-490 | the REVERSE case produces Control.ReverseStep |
| Firmware.Robot.AlertCase | Core/Src/main.c:492-514 | the ALERT case produces Control.AlertStep |
| Firmware.Robot.Iterate | Core/Src/main.c:361-515 | one iteration of the while(1) body produces Control.Iteration and keeps the buzzer invariant |
| HostLink.Split | 1team-Server/server.js:118 | split("\r\n") gives at least one piece |
| HostLink.JoinStarts | 1team-Server/server.js:118 | the joined text starts with the first piece |
| HostLink.SplitJoin | 1team-Server/server.js:118 | splitting loses nothing (joining the pieces with "\r\n" gives the text back), and no piece holds a separator |
| HostLink.SplitAppend | 1team-Server/server.js:117-119 | splitting x + b keeps every complete piece of x; only its last piece is continued by b |
| HostLink.SplitLine | 1team-Server/server.js:118 | a line, a separator and a rest split as the line and then the pieces of the rest |
| HostLink.Frame | 1team-Server/server.js:117-119 | the complete lines and the pending tail hold no separator and join back to the text |
| HostLink.SkipSpaces | 1team-Server/server.js:162 | `\s*` is the longest run of white space |
| HostLink.DigitEnd | 1team-Server/server.js:162 | `\d+` is greedy: the longest run of digits |
| HostLink.WordEnd | 1team-Server/server.js:156 | `\w+` is greedy: the longest run of word characters |
| HostLink.MatchAt | 1team-Server/server.js:156-181 | a match starts with the pattern's literal text; its capture is a non-empty run of digits for the fields and of word characters for STATE |
| HostLink.Find | 1team-Server/server.js:156-181 | match() finds nothing exactly when the pattern matches at no position, and any capture is non-empty |
| HostLink.FindSkip | 1team-Server/server.js:156-181 | positions where the pattern does not match can be skipped |
| HostLink.FindFirst | 1team-Server/server.js:156-181 | the leftmost match wins |
| HostLink.FindAbsent | 1team-Server/server.js:156-181 | a pattern whose literal text does not occur does not match |
| HostLink.Boot | 1team-Server/server.js:59-73 | the host starts in state IDLE with an empty radar and minDistance 999 |
| HostLink.FeedConcat | 1team-Server/server.js:121-126 | parsing two runs of lines in turn is parsing their concatenation |
| HostLink.BlankSkipped | 1team-Server/server.js:122 | an empty or white-space line changes nothing |
| HostLink.ReceiveKeeps | 1team-Server/server.js:116-127 | after a chunk, the pending text holds no separator, and it joins with the parsed lines back to the old pending text and the chunk |
| HostLink.FrameAppend | 1team-Server/server.js:116-127 | framing x + b gives the lines of x, then the lines of its tail continued by b |
| HostLink.ChunksCompose | 1team-Server/server.js:116-127 | how the serial driver cuts already-decoded text into chunks does not matter: two text chunks in a row end as their concatenation in one chunk |
| HostLink.Unrecognised | 1team-Server/server.js:154-197 | a line with none of the patterns and none of the mode words changes nothing |
| HostLink.StateReads | 1team-Server/server.js:156-159 | `/STATE:(\w+)/` on "STATE:" and a word captures that word |
| HostLink.FieldReads | 1team-Server/server.js:162-181 | a field pattern captures the digits of its first occurrence after "=" and white space |
| HostLink.ReportReceived | 1team-Server/server.js:116-127 | a report line the firmware prints reaches an idle host whole, and is parsed with a trailing carriage return |
| HostLink.ScanRead | 1team-Server/server.js:154-197 | a SCAN report sets the state name, the current angle and distance, and the radar point when the angle is in [30, 150] |
| HostLink.ScanReportRead | 1team-Server/server.js:116-175 | the SCAN line of the firmware's printf, received and parsed, gives what ScanRead states |
| HostLink.ExampleScan | 1team-Server/server.js:155-175 | the commented example "STATE:SCAN \| angle= 30 \| dist= 45 cm" gives state SCAN, angle 30, distance 45 and the radar point (30, 45) |
| HostLink.DecideRead | 1team-Server/server.js:162-181 | a DECIDE report sets the state and the minimum, and the angle and dist patterns also match inside "min_angle" and "min_dist": the minimum becomes the current reading and a radar point |
| HostLink.DecideReportRead | 1team-Server/server.js:162-181 | the DECIDE line of the firmware's printf, received and parsed, gives what DecideRead states |
| HostLink.MoveRead | 1team-Server/server.js:154-197 | a MOVE report changes only the state name; its "FORWARD" sets no direction without "MANUAL:" |
| HostLink.MoveReportRead | 1team-Server/server.js:154-197 | the MOVE line of the firmware's printf, received and parsed, changes only the state |
| HostLink.NoFields | 1team-Server/server.js:156-181 | a line lacking the characters every pattern needs matches none of them |
| HostLink.OnlyModed | 1team-Server/server.js:184-196 | a line without any pattern only updates the mode and direction |
| HostLink.AutoHeard | 1team-Server/server.js:184-186 | the 't' reply sets mode and direction AUTO |
| HostLink.StopHeard | 1team-Server/server.js:193-196 | the 'x' reply sets direction STOP and mode MANUAL |
| HostLink.ForwardHeard | 1team-Server/server.js:187-189 | the 'w' reply sets mode MANUAL and direction FORWARD |
| HostLink.BackwardHeard | 1team-Server/server.js:187-190 | the 's' reply sets mode MANUAL and direction BACKWARD |
| HostLink.LeftHeard | 1team-Server/server.js:187-191 | the 'a' reply sets mode MANUAL and direction LEFT |
| HostLink.RightHeard | 1team-Server/server.js:187-192 | the 'd' reply sets mode MANUAL and direction RIGHT |
| HostLink.ResetHeard | 1team-Server/server.js:154-197 | the 'r' reply matches nothing, so the host keeps its telemetry |
| HostLink.ReplyRead | 1team-Server/server.js:184-196 | what the host records from the reply to each command |
| HostLink.ReplyNotBlank | 1team-Server/server.js:122 | no reply is skipped as blank |
| HostLink.CommandHeard | 1team-Server/server.js:116-127 | what a command adds to the UART reaches an idle host as its reply line, with nothing left pending |
| HostLink.HostMonitor.constructor | 1team-Server/server.js:59-73 | the monitor starts with no pending text and the initial values |
| HostLink.HostMonitor.ParseResponse | 1team-Server/server.js:154-197 | parseSTM32Response produces Parsed and leaves the pending text |
| HostLink.HostMonitor.ReadState | 1team-Server/server.js:156-159 | the STATE section |
| HostLink.HostMonitor.ReadAngle | 1team-Server/server.js:162-165 | the angle section |
| HostLink.HostMonitor.ReadDist | 1team-Server/server.js:168-175 | the dist section, with the radar point only for angles in [30, 150] |
| HostLink.HostMonitor.ReadMin | 1team-Server/server.js:178-181 | the min_angle and min_dist section |
| HostLink.HostMonitor.OnData | 1team-Server/server.js:116-127 | the data handler produces Receive: the complete lines are parsed in order and the text after the last separator stays pending |
| HostLink.HostMonitor.GetFullStatus | 1team-Server/server.js:707-716 | getFullStatus reports the status fields and the radar variables and changes nothing |

The rows above name the members whose contracts state something. The
following functions define the model's behaviour and carry no contract of
their own. They appear in the rows above through the methods proved equal
to them and the lemmas about them.
- Control (Core/Src/main.c):
  - one function per command case (AutoStart, Halt, ManualForward,
    ManualBackward, ManualLeft, ManualRight, ServoReset), Command and Reply
    (205-278);
  - Print and PrintLine (181-187);
  - ScanLine, DecideLine and MoveLine (429-430, 457-458, 468);
  - LedAfter (280-300);
  - Refresh (366-374);
  - ReverseBlink (383-394);
  - OnEdge (376-406);
  - Prelude (361-406);
  - Track and TrackAll (432-436);
  - Sweep (438-451);
  - ScanStep (418-454);
  - DecideStep (456-464);
  - MoveStep (466-472);
  - ReverseStep (474-490);
  - AvoidTurn and AlertStep (492-514);
  - Behave (413-515);
  - Iteration (361-515);
  - Booted (334-352);
  - Consistent, the reachable-state invariant.
- HostLink (1team-Server/server.js):
  - Boot (59-73);
  - Frame and Receive (116-127);
  - Feed (121-126);
  - Parsed (154-197), built from StateStep (156-159), AngleStep (162-165),
    DistStep (168-175), MinStep (178-181) and Moded (184-196).
- Motor (Core/Src/drivers/motor.c):
  - Levels and Drive (8-70);
  - Apply, Intended and Outputs (76-119).
- Ui (Core/Src/ui_fsm.c):
  - ExpressionFor and FaceAfter (30-58);
  - AutoLine (61-73);
  - ManualLine (74-85);
  - Line1 (61-89);
  - Line2 (91-92);
  - LcdBytes (94-97).
- CharLcd (Core/Src/main.c):
  - Strobe and Transfer (93-117);
  - Cmd4Bytes (119-125);
  - XyBytes (141-146);
  - PutsBytes (153-155);
  - Decode and DecodeAll, the controller's side of the bus.
- St7735 (Core/Src/drivers/lcd_st7735.c):
  - CmdEvents (44-50);
  - WindowEvents (62-82);
  - DataEvents (66-70);
  - ColorChunks and ColorEvents (87-118);
  - BufferChunks and BufferEvents (123-145);
  - Payload and Framed, the view of the SPI log.
- Ultrasonic (Core/Src/drivers/ultrasonic.c):
  - Reading (59-71).

## Left out

- Peripheral and clock setup (SystemClock_Config, the MX_*_Init functions,
  Error_Handler) is register configuration with no logic. Only the initial
  pin levels and timer periods it sets are used.
- I2C_ScanAddresses (Core/Src/main.c:330) and the prompt printf
  (Core/Src/main.c:346) are not modelled. Control.Booted starts with an
  empty console, so the prompt is missing from the modelled UART output.
- `HAL_Delay` and the I2C retry loops are busy waits and are not modelled.
  Every I2C write is taken to succeed the first time.
- LCD_INIT and the ST7735 LCD_Init are timed reset sequences and are not
  modelled. LCD_CLEAR of the character display is not used by the core.
- echo_time_us is modelled as its polling of an echo that rises and falls
  at given times, one poll per counter tick, not of live pins.
- Ultrasonic.EchoToCm: the double product `echo_us * 0.017` and its cast
  are modelled as the integer `echo_us * 17 / 1000` rounded down. Floating
  point is not modelled, so the claim that the two agree over
  [240, 23000] is not proved.
- printf's formatting is modelled only for the formats the core uses (`%s`,
  `%d`, `%3d`, `%c`).
- The UART receive interrupt runs Handle_Command asynchronously. Here a
  command is an atomic step between loop iterations; interleaving inside an
  iteration is not modelled.
- Servo_Init's timer handle and channel are not modelled, only the compare
  value.
- The ST7735 colour display is not part of `Control.World`. UI_Init's
  clear is proved on its own object, and the eye drawing primitives of
  eyes.c are not part of this model. Eyes keeps the {current, dirty}
  contract of eyes.h, with a list of drawn expressions.
- Anim.BlinkStep restores the expression saved when the blink started,
  even when the state changed the expression during the blink
  (StaleRestore).
- Control.UiCadence, Control.ScanCadence and Control.ReverseBlinkPeriod
  assume that no time passes within one loop iteration: every read of
  `HAL_GetTick()` in an iteration gets the same `now`. On the robot, the
  two Ultrasonic_GetDistance calls of an iteration can busy-wait for up to
  about 60 ms between those reads. That drift is not modelled.
- The two distances a loop iteration reads are inputs to `Control`. The
  model does not tie them to Ultrasonic.Reading of an echo.
- Motor_Turn*, Handle_State, Buzzer_PlayElise, UI_State_t and the duplicate
  Core/Inc/app/robot_config.h are declared but unused or dead.
- server.js outside the serial parser is not modelled: the Express routes,
  connect/disconnect/listPorts/findPort, `send` with its lower-casing,
  loadConfig/saveConfig/parseArgs, and the HTML page with its radar
  drawing. These are network, file and UI I/O.
- HostLink: JavaScript numbers are taken as unbounded naturals. `parseInt`
  of more than 15 digits, which loses precision as a double, cannot come
  from the firmware's 16-bit fields.
- HostLink: `console.log` of each received line is output only.
- HostLink.Receive and HostLink.ChunksCompose take a chunk as text that is
  already decoded. `data.toString()` decodes each Buffer chunk as UTF-8 on
  its own, so a multi-byte character split between two chunks becomes
  U+FFFD. The Hangul prompt of Core/Src/main.c:346 is such text. The ASCII
  reports and replies are not affected.
