# RC car: joystick, phone client and car receiver, modelled in Dafny

The repository is a remote-controlled car in two Android apps.

- **Phone app.** A joystick widget (`JoystickView`) turns a touch into a sample: a direction, a speed ratio and an angle. The phone activity validates the server address the user typed, connects over TCP, and sends one text line per joystick move, `Angle: <a>, Speed: <s>`. A 50 ms throttle and an in-flight guard limit the sends. A keep-alive repeats `(0, 0)` while the stick is at rest.
- **Car app.** It listens on port 8888 and reads the lines. For each line it splits on `": "` / `", "` and needs exactly four pieces. It parses pieces 1 and 3 as Java ints. It sets the angle to 0 when the speed is 0, then hands the pair to the motor driver. A bad line is skipped, not fatal.

The model has five modules, one per file:

| file | module | what it holds |
|---|---|---|
| `java_text.dfy` | `JavaText` | The `java.lang` behaviour the apps rely on: `String.trim`, `Integer.parseInt` (optional sign, int32 overflow rejected) and `Integer.toString`. |
| `joystick.dfy` | `Joystick` | Sector classification, diagonal override, speed ratio, angle normalisation and the clamp, as functions. `JoystickView` is a class whose methods update the same fields as the Java code and record every listener call in `notified`. |
| `client.dfy` | `Client` | The IPv4 pattern and an independent "dotted quad" definition, proved equivalent. Also the connect-click validation, the wire message, the direction text and the send throttle. `MainActivity` is a class whose single-thread executor is an explicit task queue (`tasks`), and whose output stream is the list of printed lines (`written`). |
| `receiver.dfy` | `Receiver` | Java's `split(": \|, ")` (trailing empty pieces dropped), the line parse, the stop policy, and `HandleClient`. `HandleClient` is a loop over the received lines that returns the pairs passed to `controlCar`. |
| `protocol.dfy` | `Protocol` | The round trip between the two apps. Every message the phone prints is read back by the car as the pair that was sent. A whole connection's stream is dispatched as exactly the sent pairs, with the stop policy applied. |

Clock readings (`System.currentTimeMillis`), whether `new Socket(...)` succeeds, and the results of `Math.sqrt` / `Math.atan2` are parameters of the operations that use them. Floats and doubles are real numbers.

Where the code and its comments disagree, the model follows the code. One case is the angle direction: the code's comments (JoystickView.java:144, 203) say it increases clockwise. `atan2(-dx, -dy)` actually puts a touch to the left of the centre at 90°, and the sector table maps 67.5°–112.5° to LEFT. So on screen the angle grows counter-clockwise, and the model keeps the code's table.

## Model

| member | source | states |
|---|---|---|
| `Joystick.Sector` | car/car/app/src/main/java/com/example/car/JoystickView.java:148-165 | The sector chain is total: every angle gets one of the eight directions, never NONE. |
| `Joystick.SectorIsOctant` | car/car/app/src/main/java/com/example/car/JoystickView.java:148-165 | On [0, 360) the if/else chain agrees with an independent definition. That definition takes octant floor((angle + 22.5) / 45) mod 8 of the compass order UP, UP_LEFT, LEFT, … UP_RIGHT. |
| `Joystick.SectorBoundaries` | car/car/app/src/main/java/com/example/car/JoystickView.java:149-164 | Each sector's lower bound is inclusive and its upper bound exclusive. For example 0 → UP, 22.5 → UP_LEFT, 67.5 → LEFT, 292.5 → UP_RIGHT and 337.5 → UP. |
| `Joystick.DiagonalOverride` | car/car/app/src/main/java/com/example/car/JoystickView.java:168-175 | The direction changes exactly when it is UP or DOWN and both \|dx\| and \|dy\| strictly exceed 0.4·R. The new direction is the adjacent diagonal on the side of dx's sign (right exactly when dx > 0). Forward/backward is never changed. |
| `Joystick.Classify` | car/car/app/src/main/java/com/example/car/JoystickView.java:148-175 | Sector plus override never yields NONE. |
| `Joystick.SpeedRatio` | car/car/app/src/main/java/com/example/car/JoystickView.java:141-142 | min(distance / R, 1) is in [0, 1]. It equals distance / R when distance ≤ R, and 1 otherwise. |
| `Joystick.NormaliseAngle` | car/car/app/src/main/java/com/example/car/JoystickView.java:145 | The angle normalisation `(degrees + 360) % 360`. Its meaning is stated by `NormaliseAngleRange`. |
| `Joystick.NormaliseAngleRange` | car/car/app/src/main/java/com/example/car/JoystickView.java:145 | `(x + 360) % 360`, with Java's truncating remainder on doubles, lies in [0, 360) for any x > -360. For x < 360 it is x + 360 when x is negative and x otherwise. |
| `Joystick.Clamp` | car/car/app/src/main/java/com/example/car/JoystickView.java:94-98 | Pulling a touch outside the circle back onto its rim. Its meaning is stated by `ClampSpec` and `ClampedLength`. |
| `Joystick.ClampSpec` | car/car/app/src/main/java/com/example/car/JoystickView.java:94-98 | The clamped offset's squared length is at most R². It is exactly R² when clamping happened. An offset inside the circle is unchanged. The direction is preserved: it is a positive multiple of the touch offset. |
| `Joystick.ClampedLength` | car/car/app/src/main/java/com/example/car/JoystickView.java:94-98 | The clamped offset has length min(distance, R). This is what `calculateDirection` measures again at line 141. |
| `Joystick.OverrideNeverFires` | car/car/app/src/main/java/com/example/car/JoystickView.java:168-175 | An offset no longer than R that lies in the UP/DOWN cone (dx² ≤ 0.1716·dy², with tan²(22.5°) ≈ 0.171573 below that bound) never has both \|dx\| and \|dy\| above 0.4·R. So the diagonal override cannot fire on a clamped touch (see Findings). |
| `Joystick.TouchDirectionIsSector` | car/car/app/src/main/java/com/example/car/JoystickView.java:148-175 | For any touch whose angle fits its offset, the direction computed from the clamped offset is exactly the sector of the angle (lines 148-165). The override is never taken. |
| `Joystick.ClassifyIntended` | car/car/app/src/main/java/com/example/car/JoystickView.java:168-175 | The corrected direction: the override test made on the touch offset before clamping. It is the sector or a diagonal next to it, never NONE, and it keeps forward/backward. |
| `Joystick.IntendedAgreesInside` | car/car/app/src/main/java/com/example/car/JoystickView.java:168-175 | For a touch inside the circle, the corrected direction equals the one the code computes. |
| `Joystick.IntendedOverrideFires` | car/car/app/src/main/java/com/example/car/JoystickView.java:168-175 | Touch (20, −99) with R = 45 at about 348.6° fits its angle. The code reports UP for it, while the corrected override reports UP_RIGHT. So the correction makes the override reachable. |
| `Joystick.JoystickView.constructor` | car/car/app/src/main/java/com/example/car/JoystickView.java:53-61 | The view is sized w×h. The centre is at (w/2, h/2) and R = min(w, h)/3. The handle starts at the centre and the sample at (NONE, 0, 0), with no listener and no calls yet. |
| `Joystick.JoystickView.SetOnDirectionChangeListener` | car/car/app/src/main/java/com/example/car/JoystickView.java:187-189 | Only the listener changes. |
| `Joystick.JoystickView.OnTouchDownOrMove` | car/car/app/src/main/java/com/example/car/JoystickView.java:85-113 | The handle moves to the clamped offset. The speed ratio is that of the clamped length and the angle is normalised. For an angle that fits the offset, the direction is the sector of that angle and is never NONE. A listener receives that same sample twice. |
| `Joystick.JoystickView.CalculateDirection` | car/car/app/src/main/java/com/example/car/JoystickView.java:139-178 | It stores SpeedRatio, the normalised angle and Classify, and notifies the listener once. The handle and the geometry are untouched. |
| `Joystick.JoystickView.TriggerDirectionChange` | car/car/app/src/main/java/com/example/car/JoystickView.java:180-185 | It stores the new direction and notifies (direction, current speed ratio, given angle) if there is a listener. Nothing else changes. |
| `Joystick.JoystickView.NotifyCurrent` | car/car/app/src/main/java/com/example/car/JoystickView.java:107-109 | It appends the current sample to the listener calls if there is a listener. Nothing else changes. |
| `Joystick.JoystickView.OnTouchUp` | car/car/app/src/main/java/com/example/car/JoystickView.java:114-127 | The handle returns to the centre and the sample becomes (NONE, 0, 0). A listener receives (NONE, 0, 0). |
| `Joystick.JoystickView.GetCurrentSpeedRatio` | car/car/app/src/main/java/com/example/car/JoystickView.java:197-199 | It returns the stored ratio, which is in [0, 1]. |
| `Joystick.JoystickView.GetCurrentAngle` | car/car/app/src/main/java/com/example/car/JoystickView.java:207-209 | It returns the stored angle, which is in [0, 360). |
| `Joystick.JoystickView.GetCurrentDirection` | car/car/app/src/main/java/com/example/car/JoystickView.java:212-214 | It returns the direction last stored by TriggerDirectionChange or by the release. |
| `Client.IsValidIp` | car/car/app/src/main/java/com/example/car/MainActivity.java:505-512 | The IPv4 regex. Its meaning is stated by `IsValidIpIsDottedQuad`. |
| `Client.IsValidIpIsDottedQuad` | car/car/app/src/main/java/com/example/car/MainActivity.java:505-512 | The IPv4 regex accepts a string exactly when it is four '.'-separated groups of 1–3 ASCII digits, each with value ≤ 255. Both directions are proved. |
| `Client.IsValidIpOfOctets` | car/car/app/src/main/java/com/example/car/MainActivity.java:505-512 | Any four octet groups joined by '.' are accepted. |
| `Client.IsValidIpRejectsGroup` | car/car/app/src/main/java/com/example/car/MainActivity.java:505-512 | A first group that does not match the octet alternative rejects the whole string, whatever follows. |
| `Client.OctetPatternExamples` | car/car/app/src/main/java/com/example/car/MainActivity.java:507-508 | "0", "01", "001" and "255" match the octet alternative. "256", "0001", "" and "abc" do not. |
| `Client.LeadingZerosAccepted` | car/car/app/src/main/java/com/example/car/MainActivity.java:505-512 | "192.168.001.01" is accepted. |
| `Client.GroupAbove255Rejected` | car/car/app/src/main/java/com/example/car/MainActivity.java:505-512 | "256.1.1.1" is rejected. |
| `Client.MissingGroupRejected` | car/car/app/src/main/java/com/example/car/MainActivity.java:505-512 | "1.2.3" is rejected. |
| `Client.ValidateConnectInput` | car/car/app/src/main/java/com/example/car/MainActivity.java:110-147 | An accepted endpoint holds the trimmed address, which is a valid IPv4 text, and a port in 1..65535. Every outcome is characterised by `ValidateConnectInputOutcomes`. |
| `Client.ValidateConnectInputOutcomes` | car/car/app/src/main/java/com/example/car/MainActivity.java:110-147 | Each outcome holds if and only if its condition holds, checked in this order: an empty trimmed field, then not a dotted quad, then a port that is not an int, then a port outside 1..65535. An accepted endpoint is the trimmed address with the parsed port. |
| `Client.Message` | car/car/app/src/main/java/com/example/car/MainActivity.java:345-346 | The message holds no line break, so `println` sends it as one line. |
| `Client.DirectionText` | car/car/app/src/main/java/com/example/car/MainActivity.java:460-473 | Every direction has its own case: the "unknown" fallback is never returned. |
| `Client.DirectionTextInjective` | car/car/app/src/main/java/com/example/car/MainActivity.java:460-473 | Different directions get different texts. |
| `Client.DecideSend` | car/car/app/src/main/java/com/example/car/MainActivity.java:326-331 | A request is throttled exactly when it comes less than 50 ms after the last send time. It is queued exactly when it comes at least 50 ms later and no send is in flight. |
| `Client.AfterSendData` | car/car/app/src/main/java/com/example/car/MainActivity.java:324-334 | The send bookkeeping (last send time, in-flight flag, queue, send history) after one sendData request. A throttled request leaves it alone. One behind an in-flight send only moves the last send time. Otherwise one send task is queued and its start recorded. `SendData` is proved to change the state exactly like this. |
| `Client.RateLimitedSpacing` | car/car/app/src/main/java/com/example/car/MainActivity.java:326-331 | In the history of queued sends, send j starts at least 50·(j − i) ms after send i. |
| `Client.MainActivity.IsConnectionValid` | car/car/app/src/main/java/com/example/car/MainActivity.java:389-395 | A valid connection has a socket. The four socket flags of lines 389-395 are tested. Every stored socket is the freshly opened one, because closing, shutting down and peer-side events are not modelled. So under the class invariant the test holds exactly when a socket is held. |
| `Client.MainActivity.constructor` | car/car/app/src/main/java/com/example/car/MainActivity.java:38-53 | The activity starts with no endpoint, socket or writer. It is not connected, not sending, has last send time 0 and no keep-alive, with an empty queue and nothing written. |
| `Client.MainActivity.SendData` | car/car/app/src/main/java/com/example/car/MainActivity.java:324-334 | A throttled call changes nothing. Otherwise the last send time becomes `now`. If a send is in flight nothing is queued. Otherwise `isSending` is set and one send task with (angle, speed) is queued. The connection and the written lines are unchanged, and at most one send stays in flight (class invariant). |
| `Client.MainActivity.CloseConnection` | car/car/app/src/main/java/com/example/car/MainActivity.java:401-419 | It makes a (0, 0) sendData request first. Then writer and socket are null and the connection is not valid. Nothing is written. |
| `Client.MainActivity.UpdateConnectionStatus` | car/car/app/src/main/java/com/example/car/MainActivity.java:427-439 | Only `isConnected` changes, to the given value. |
| `Client.MainActivity.ConnectToServer` | car/car/app/src/main/java/com/example/car/MainActivity.java:255-286 | It queues one connect task. It keeps the class invariant both when called from the click handler and from inside a running send task (lines 338-340), where the send being run is still counted as in flight. |
| `Client.MainActivity.DisconnectFromServer` | car/car/app/src/main/java/com/example/car/MainActivity.java:293-315 | It queues one disconnect task. |
| `Client.MainActivity.HandleConnectClick` | car/car/app/src/main/java/com/example/car/MainActivity.java:103-149 | While connected, a click always queues a disconnect and leaves the endpoint alone, whatever the fields hold. Otherwise it does what the validation decided. On rejection the endpoint is unchanged and nothing is queued. On acceptance it stores the endpoint and queues exactly one connect. |
| `Client.MainActivity.ApplyValidation` | car/car/app/src/main/java/com/example/car/MainActivity.java:126-147 | On rejection nothing changes. On acceptance the trimmed address and parsed port are stored and exactly one connect is queued. |
| `Client.MainActivity.HandleJoystickMovement` | car/car/app/src/main/java/com/example/car/MainActivity.java:184-208 | Disconnected: nothing is sent and the keep-alive is untouched. Connected at rest: the keep-alive runs and nothing is sent directly. In both of these cases the send bookkeeping is unchanged. Connected and moving: the keep-alive is stopped and (angle, speed percent) goes through sendData. The connection is unchanged throughout. |
| `Client.MainActivity.KeepAliveTick` | car/car/app/src/main/java/com/example/car/MainActivity.java:188-197 | While connected with the stick at rest, one (0, 0) goes through sendData and the loop keeps running. Otherwise the loop ends, and nothing is sent or queued. |
| `Client.MainActivity.RunNextTask` | car/car/app/src/main/java/com/example/car/MainActivity.java:46 | The single-thread executor runs its oldest task; each case below states the resulting state. A disconnect task leaves the client disconnected with no socket, after a (0, 0) sendData request. A failed connect leaves it the same way. A successful connect leaves it connected with an auto-flushing writer. Its send bookkeeping is then that of two (0, 0) sendData requests: the one inside closeConnection at the clock reading `now`, then the one at line 273 at the later reading `openedAt`. A send task writes its line if the connection was valid; if not, it queues a connect and writes nothing. |
| `Client.MainActivity.RunConnect` | car/car/app/src/main/java/com/example/car/MainActivity.java:256-285 | It closes the old connection first (line 260). If the socket opens, the client is connected with a writer. Its send bookkeeping is that of a (0, 0) request at `now` inside the close, followed by the (0, 0) request at `openedAt` (line 273). Otherwise it is disconnected with neither. Nothing is written. |
| `Client.MainActivity.RunDisconnect` | car/car/app/src/main/java/com/example/car/MainActivity.java:294-314 | It closes the connection (including its (0, 0) sendData request) and marks the client disconnected. |
| `Client.MainActivity.RunSend` | car/car/app/src/main/java/com/example/car/MainActivity.java:334-359 | If the connection is valid, exactly `Message(angle, speed)` is appended to the written lines. Otherwise a connect is queued and nothing is written. `isSending` is cleared either way. |
| `Client.MainActivity.DisconnectClickReconnects` | car/car/app/src/main/java/com/example/car/MainActivity.java:401-404 | As written, a disconnect click while connected and idle ends connected again once the executor has run its tasks and the server is reachable. Nothing is written on the way (see Findings). |
| `Client.MainActivity.CloseConnectionStopFirst` | car/car/app/src/main/java/com/example/car/MainActivity.java:401-419 | The corrected close writes `Message(0, 0)` on the open writer and then drops writer and socket. Nothing is queued. |
| `Client.MainActivity.RunDisconnectStopFirst` | car/car/app/src/main/java/com/example/car/MainActivity.java:293-315 | The corrected disconnect task leaves the client disconnected, with the queue and the send bookkeeping unchanged. The stop line is written iff a writer was open. |
| `Client.MainActivity.DisconnectClickStopFirst` | car/car/app/src/main/java/com/example/car/MainActivity.java:103-106 | With the corrected close, the same click writes the stop line once and ends disconnected with an empty queue. |
| `JavaText.NatToStringDigits` | car/car/app/src/main/java/com/example/car/MainActivity.java:345-346 | The decimal rendering is all digits and reads back as n. It is one digit exactly for n < 10. |
| `JavaText.IntToString` | car/car/app/src/main/java/com/example/car/MainActivity.java:345-346 | `String.valueOf` of an int; it is never empty. Its meaning is stated by `IntToStringDigits` and `ParseIntToString`. |
| `JavaText.IntToStringDigits` | car/car/app/src/main/java/com/example/car/MainActivity.java:345-346 | The rendering starts with '-' exactly for negative numbers, followed by the digits of \|x\|. It ends in a digit. |
| `JavaText.IntToStringSingleLine` | car/car/app/src/main/java/com/example/car/MainActivity.java:347 | A rendered number holds no line break. |
| `JavaText.ParseInt` | CarJNI/CarJNI/app/src/main/java/com/example/carjni/MainActivity.java:91-92 | A successful parse is a 32-bit int and the text ends in a digit. Its full meaning is stated by `ParseIntSpec`. |
| `JavaText.ParseIntSpec` | CarJNI/CarJNI/app/src/main/java/com/example/carjni/MainActivity.java:91-92 | Both directions: the parse yields v exactly when the text is an optional '-' or '+' followed by at least one ASCII digit, its signed value is v, and v fits in 32 bits. It fails exactly when the text is not of that shape or its value overflows. |
| `JavaText.ParseIntOfDigits` | CarJNI/CarJNI/app/src/main/java/com/example/carjni/MainActivity.java:91-92 | A sign ("", "-" or "+") followed by digits parses to the signed value of the digits when it fits in 32 bits, and fails otherwise. Leading zeros are allowed. |
| `JavaText.ParseIntExamples` | CarJNI/CarJNI/app/src/main/java/com/example/carjni/MainActivity.java:91-92 | "+0080" parses to 80. "", "-" and " 1" are errors. |
| `JavaText.ParseIntToString` | CarJNI/CarJNI/app/src/main/java/com/example/carjni/MainActivity.java:91-92 | `parseInt(toString(x)) == x` for every int x. |
| `JavaText.Trim` | CarJNI/CarJNI/app/src/main/java/com/example/carjni/MainActivity.java:91-92 | `String.trim`; the result is never longer than the input. Its meaning is stated by `TrimSpec`. |
| `JavaText.TrimSpec` | CarJNI/CarJNI/app/src/main/java/com/example/carjni/MainActivity.java:91-92 | `trim` keeps a contiguous part of the string with no character ≤ U+0020 at either end. Everything it removes, before and after that part, is a character ≤ U+0020. The result is empty exactly when the whole string is such characters. |
| `JavaText.TrimUnchanged` | CarJNI/CarJNI/app/src/main/java/com/example/carjni/MainActivity.java:91-92 | A string with no whitespace at either end is returned unchanged. |
| `JavaText.ParseTrimmedToString` | CarJNI/CarJNI/app/src/main/java/com/example/carjni/MainActivity.java:91-92 | `parseInt(toString(x).trim()) == x`: trimming a rendering is a no-op. |
| `Receiver.ParseLine` | CarJNI/CarJNI/app/src/main/java/com/example/carjni/MainActivity.java:83-92 | One received line split into four pieces with the second and fourth parsed as ints. Its meaning is stated by `ParseLineInt32`, `TooFewPieces`, `TrailingEmptyDropped`, `LabelsIgnored` and `RenderedLineParses`. |
| `Receiver.ParseLineInt32` | CarJNI/CarJNI/app/src/main/java/com/example/carjni/MainActivity.java:90-92 | A line that parses yields two 32-bit ints. |
| `Receiver.JavaSplit` | CarJNI/CarJNI/app/src/main/java/com/example/carjni/MainActivity.java:83 | `split(": |, ")` with Java's dropping of trailing empty strings. Its meaning is stated by `DropTrailingEmptySpec`, `PiecesNoSep` and `SplitFour`. |
| `Receiver.DropTrailingEmptySpec` | CarJNI/CarJNI/app/src/main/java/com/example/carjni/MainActivity.java:83 | The split's result is a prefix of the raw pieces that ends in a non-empty piece. Everything dropped is empty. |
| `Receiver.PiecesNoSep` | CarJNI/CarJNI/app/src/main/java/com/example/carjni/MainActivity.java:83 | A string with no ": " or ", " is a single piece. |
| `Receiver.SplitFour` | CarJNI/CarJNI/app/src/main/java/com/example/carjni/MainActivity.java:83-88 | Four separator-free fields joined by three separators, the last field non-empty, split back into exactly those four fields. |
| `Receiver.TooFewPieces` | CarJNI/CarJNI/app/src/main/java/com/example/carjni/MainActivity.java:83-88 | A line with no separator, or with only one, is rejected as malformed. |
| `Receiver.TrailingEmptyDropped` | CarJNI/CarJNI/app/src/main/java/com/example/carjni/MainActivity.java:83-88 | A line ending in a separator (`"a: b, c: "`) loses its empty last piece and is malformed. |
| `Receiver.LabelsIgnored` | CarJNI/CarJNI/app/src/main/java/com/example/carjni/MainActivity.java:83-92 | The labels are never checked. Any separator-free labels give the same result as parsing the two values alone. |
| `Receiver.RenderedLineParses` | CarJNI/CarJNI/app/src/main/java/com/example/carjni/MainActivity.java:83-92 | Two rendered ints under any labels (e.g. "Foo: 1, Bar: 2") parse to exactly that pair. |
| `Receiver.ApplyPolicy` | CarJNI/CarJNI/app/src/main/java/com/example/carjni/MainActivity.java:93 | The speed is kept, the angle is kept while moving, and the result never turns while stopped (speed 0 ⇒ angle 0). |
| `Receiver.ApplyPolicySpec` | CarJNI/CarJNI/app/src/main/java/com/example/carjni/MainActivity.java:93 | The speed is kept, and the angle is kept when moving. The result satisfies "speed 0 ⇒ angle 0". A pair is a fixed point iff it already satisfies that. Applying the policy twice equals applying it once. |
| `Receiver.HandleClient` | CarJNI/CarJNI/app/src/main/java/com/example/carjni/MainActivity.java:78-117 | The loop with `continue` dispatches exactly `Dispatch(lines)`: the policy-applied pairs of the parsable lines, in order. Every dispatched pair obeys the policy. |
| `Receiver.Dispatch` | CarJNI/CarJNI/app/src/main/java/com/example/carjni/MainActivity.java:81-107 | The pairs the loop hands to `controlCar`, one per parsable line, in order. Its meaning is stated by `HandleClient`, `DispatchAppend`, `DispatchSnoc` and `SkippedLine`. |
| `Receiver.DispatchKeepsPolicy` | CarJNI/CarJNI/app/src/main/java/com/example/carjni/MainActivity.java:91-102 | Every dispatched pair has speed 0 ⇒ angle 0, and both values fit in an int. |
| `Receiver.DispatchAppend` | CarJNI/CarJNI/app/src/main/java/com/example/carjni/MainActivity.java:81-107 | Lines are handled independently: the pairs of a + b are the pairs of a followed by the pairs of b. |
| `Receiver.DispatchSnoc` | CarJNI/CarJNI/app/src/main/java/com/example/carjni/MainActivity.java:81-107 | One more line adds exactly that line's pair, or nothing. |
| `Receiver.SkippedLine` | CarJNI/CarJNI/app/src/main/java/com/example/carjni/MainActivity.java:85-106 | A malformed or non-numeric line neither dispatches anything nor ends the loop. What follows it is handled as if it were absent. |
| `Receiver.DispatchLength` | CarJNI/CarJNI/app/src/main/java/com/example/carjni/MainActivity.java:81-107 | At most one pair per line. |
| `Protocol.MessageRoundTrip` | CarJNI/CarJNI/app/src/main/java/com/example/carjni/MainActivity.java:83-92 | The phone's `Angle: a, Speed: s` (car/…/MainActivity.java:345-346) parses on the car to (a, s) for all ints a and s, before the policy. It holds no line break. |
| `Protocol.StreamRoundTrip` | CarJNI/CarJNI/app/src/main/java/com/example/carjni/MainActivity.java:81-107 | For a whole connection, the car dispatches exactly the sent pairs, each with the stop policy applied, in order. |
| `Protocol.ExpectedKeepsPolicy` | CarJNI/CarJNI/app/src/main/java/com/example/carjni/MainActivity.java:93 | What the car is told keeps the sent speed and, when moving, the sent angle, and never turns while stopped. |

## Findings

| source | as written | input that shows it | evidently intended | confidence | as-written member | corrected member |
|---|---|---|---|---|---|---|
| car/car/app/src/main/java/com/example/car/MainActivity.java:401-404 | `closeConnection` sends its stop `(0, 0)` through `sendData`, which only queues a task on the single-thread executor (line 46). The caller then nulls writer and socket. When the queued task runs, `isConnectionValid()` is false, so it calls `connectToServer()` (lines 338-339). That queues a connect task, which `wait(1000)` cannot let run because it holds the only executor thread. The connect then runs and reconnects. | Connected, idle, last send ≥ 50 ms ago; the user clicks "disconnect"; the server is still reachable. | The stop line goes out on the open connection before it is closed, and a disconnect leaves the phone disconnected. | not executed; follows from the single-thread executor and the order of the calls | `Client.MainActivity.DisconnectClickReconnects` | `Client.MainActivity.CloseConnectionStopFirst`, `Client.MainActivity.RunDisconnectStopFirst`, `Client.MainActivity.DisconnectClickStopFirst` |
| car/car/app/src/main/java/com/example/car/JoystickView.java:168-175 | The diagonal override changes UP or DOWN into a diagonal when both \|dx\| and \|dy\| exceed 0.4·R. But the offset it measures has been clamped to length ≤ R (lines 94-98), and an UP or DOWN angle puts it within 22.5° of the vertical, so \|dx\| ≤ tan(22.5°)·\|dy\| ≈ 0.414·\|dy\|. Both above 0.4·R would need dx² + dy² > 0.16·R² + 0.16·R²/0.1716 ≈ 1.09·R², more than R². | Any touch. The widest case is the rim just inside 22.5°: \|dx\| ≈ 0.383·R, below 0.4·R. | The override reports a diagonal for a touch that is far from both axes, which it can only do when the test is made on the touch offset before clamping. As written it is dead code, and the direction is always the plain sector. | not executed; proved for every clamped offset in the UP/DOWN cone | `Joystick.DiagonalOverride`, `Joystick.OverrideNeverFires`, `Joystick.TouchDirectionIsSector` | `Joystick.ClassifyIntended`, `Joystick.IntendedOverrideFires` |

The executor (`RunNextTask`) still runs the disconnect task as written, so that the model of the rest of the client stays faithful. The corrected close and disconnect are separate members and come with their own scenario. The view keeps the override as written too (`Classify`); for a real touch it always reduces to `Sector`. `ClassifyIntended` is the corrected direction. Inside the circle it agrees with the code, and beyond the rim it can report a diagonal.

## Left out

- **Floating point.** Float and double arithmetic is modelled with exact reals. Rounding of `sqrt`, the division in the clamp, and `min(distance / R, 1f)` is not modelled.
- **`Math.sqrt`, `Math.atan2` and `Math.toDegrees`.** Their results are inputs, constrained by what they mean: distance² = dx² + dy², and raw degrees in [-180, 180]. The model does not derive the angle from the offset. It requires only that an angle in the UP or DOWN sector comes with an offset in that sector's cone, dx² ≤ 0.1716·dy² (`AngleFits`). The bound 0.1716 is just above tan²(22.5°) = 3 − 2·√2. The other sectors' geometry is not constrained, because the direction does not depend on it.
- Client.Message: takes ints, because `%.0f` rounding of a double (half-up in `Formatter`) is not modelled. The speed the phone sends is `speedRatio · 100` after that rounding. `HandleJoystickMovement` takes the already-rounded angle and speed.
- **`getXratio` / `getYratio`.** They are left out. `getYratio` (JoystickView.java:229) subtracts `centerY` from `handleX`, so it is not the Y ratio its comment promises.
- **`onDraw`, `invalidate`, `init`** and all UI work. This covers the display, toasts, button text, colour and enabled state, `updateDisplay`, `getSpeedColor`, window insets and `getString` formatting. None of it affects the data that is sent or dispatched.
- **Threads and locks.** The keep-alive thread is a `keepAliveRunning` flag plus `KeepAliveTick`, one loop iteration. `Thread.sleep(50)` and `interrupt` are not modelled. `synchronized`, `wait(1000)` and `notifyAll` are not modelled either: the executor runs one task at a time from `tasks`, and its ordering is what the model relies on.
- Client.MainActivity.SendData: each call is modelled as one atomic step, and so is each call of `KeepAliveTick`, `HandleJoystickMovement` and the executor's tasks. In the program three threads call `sendData`: the UI thread (line 206), the keep-alive thread (line 190) and the executor (line 273, and line 404 through `closeConnection`). The throttle reads and then writes a plain `long lastSendTime` (lines 326-327). The guard is `isSending.get()` followed by `isSending.set(true)` (lines 330-331), not one `compareAndSet`. Two threads that interleave inside those lines can both pass, which queues two send tasks less than 50 ms apart. The class invariant "at most one send in flight" (`Invariant`, `Valid`) and the spacing `RateLimited` / `RateLimitedSpacing` are proved only for the atomic model and do not hold under such interleavings.
- **Time.** `System.currentTimeMillis()` is read twice in `sendData` (lines 326-327). The model uses one `now` for both.
- **Sockets and streams.** These are modelled as nullable fields: a stored socket is connected and open, so `isConnectionValid()` reduces to "there is a socket". Peer-side shutdowns are not modelled. `setSoTimeout` has no effect here.
- **Exceptions on close and send.** An `IOException` from `close()` is not modelled. `PrintWriter.println` does not throw, so `handleSendError` (lines 373-377) is not reached from a failed write. It is not modelled.
- **Lifecycle hooks.** `onCreate`, `initViews`, `setupJoystickListener` and `onDestroy` are not modelled; the last shuts the executor down before closing.
- JavaText.ParseInt: reads only ASCII digits. `Integer.parseInt` also accepts other Unicode decimal digits, which the phone never sends.
- **Car-side I/O.** `startServer` and its accept loop are reduced to the constant `ListenPort` and a call of `HandleClient` per connection. `BufferedReader.readLine` line splitting is not modelled: the received lines are the input. The UI update is not modelled. `controlCar` and `native-lib.cpp` (the device driver calls) are modelled as a sink: the dispatched pairs are returned in order.
