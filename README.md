# Robobo reinforcement-learning environment: a Dafny model

This project models the logic of a robotics course's Robobo environments.
A Robobo robot, real or simulated, is trained to find and approach a
coloured target, and later it is tele-operated by arm gestures. The model
covers these parts:

- **The P2 environment** (`EntornoP2`, a class). A staircase reward is
  built from the blob position, the blob size and the front/back infrared
  readings. A step/reset cycle carries:
  - a persistent wheel velocity, clamped to [-15, 15];
  - a 1-based step counter that decides `terminated`/`truncated`;
  - per-episode reward and floor-position lists, moved into the history on
    the next reset.
- **The P3 environment** (`EntornoP3`, a class). It has the same cycle with
  the velocity clamped to [-2, 2]. Its reward has two Gaussian bumps, a rear
  infrared penalty and a size term. `math.exp` is a parameter, so every
  fact proved about the reward holds for any exponential function.
- **The sensor readers of P1 and P3** (`RoboboApiP1`, `RoboboApiP3`):
  - the first blob or a sentinel;
  - the infrared pair `[Front-C, Back-C]`;
  - the floor positions;
  - the distance guards that answer 100;
  - the random walk that moves the target objects.
- **The camera object sensor** (`SensorObjeto`). A running maximum picks the
  most confident box of the target class. Its centre is normalised to the
  percentage square [0, 100].
- **The gesture classifier** (`Vision`). It is the priority-ordered decision
  list over the shoulder and wrist keypoints.
- **Tele-operation** (`Telecontrol`). The action builders map a speed on the
  robot's 0..20 scale to an environment action. The label dispatch of
  `predict` turns a gesture into an action.
- **The P2 training helpers** (`UtilsP2`):
  - the observation vector;
  - the fitness of a genome over one episode, as a loop against the
    environment class;
  - the loop that picks a file name that does not overwrite an earlier
    genome.

Sensor readings, the detector's boxes, the pose keypoints, the network and
the set of existing files are inputs. Calls to the robot, to the simulator
and to the detection models are not modelled. The wheel command the robot
would receive is a returned value.

Behaviours of the code worth noting:

- `reset` sets the step counter to 1, not to 0.
- `reset` leaves the stored wheel velocity as it was.
- `sigma` is not clamped away from zero in the P3 reward. Dividing a Python
  float distance (the literal 100.0, or `math.sqrt` in simulation) by a zero
  `sigma` raises, which is the error path `SigmaCero`. The real-world estimate
  is a numpy float, so the division gives an infinity and the distance term
  becomes 0 (`EntornoP3.RecompensaPaso`).
- An empty infrared reading that comes as an empty dictionary raises a
  `KeyError`. It does not default to zeros (see Findings).
- No target memory (the last known direction of a lost target) exists in the
  modelled code.

The last test of the label dispatch, `posicion in ("BRAZOS EN CRUZ")`, is a
substring test on a string rather than a tuple membership test.
`Telecontrol.Despacha` models it as a substring test.
`Telecontrol.DespachaSigueLaTabla` proves that this is harmless on the
classifier's own eight labels. `Telecontrol.SubcadenaDetiene` shows which
other strings it also accepts.

## Model

| member | source | states |
|---|---|---|
| Comun.Clip | P2/codigo/Entorno.py:227-228 | `np.clip` on a scalar: the result lies in [lo, hi], equals the value when it is inside, and is the nearer bound when it is outside |
| Comun.ClipInt | P3/codigo/SensorObjeto.py:74-75 | the same clip on integers, as used for the normalised detection coordinates |
| Comun.Trunc | P3/codigo/SensorObjeto.py:67-71 | Python's `int()` on a float truncates toward zero: below the value for positive input, above it for negative input, by less than 1 |
| EntornoP2.TerminoCentrado | P2/codigo/Entorno.py:153-159 | centring term: 20 exactly when \|x-50\| < 10, 10 exactly when 10 <= \|x-50\| < 25, -5 exactly otherwise |
| EntornoP2.TerminoIR | P2/codigo/Entorno.py:165-174 | front infrared term: 100 / 50 / 25 / 10 / 0, each exactly on its band (> 500, (300, 500], (200, 300], (100, 200], <= 100) |
| EntornoP2.PenalizacionAtras | P2/codigo/Entorno.py:177 | -20 exactly when the rear reading exceeds 100, otherwise 0 |
| EntornoP2.PenalizacionPerdido | P2/codigo/Entorno.py:194 | -100 exactly when x is the -1 sentinel, otherwise 0 |
| EntornoP2.Bonus | P2/codigo/Entorno.py:197-199 | 50 exactly when \|x-50\| < 15 and the front reading exceeds 300, otherwise 0 |
| EntornoP2.PenalizacionParedes | P2/codigo/Entorno.py:180-191 | the wall penalty is non-negative, and it is zero exactly when the rear and the four lateral readings are all at most 100 |
| EntornoP2.Recompensa | P2/codigo/Entorno.py:140-215 | `_get_recompensa`: the sum of the centring, size, front, rear, lost and bonus terms, requiring the six readings the source indexes; its meaning is stated by the lemmas below (bounds, the lost-blob value, monotonicity, and the lateral readings and wall penalty never reaching the sum) |
| EntornoP2.Terminado | P2/codigo/Entorno.py:232-235 | `terminated` and `truncated` are both the test counter == steps per episode, on the counter read before the increment (used by `Entorno.Step`) |
| EntornoP2.RecompensaIgnoraLaterales | P2/codigo/Entorno.py:144-151 | two infrared vectors that agree on the front and back readings give the same reward: the lateral sensors do not reach the sum |
| EntornoP2.ParedesNoSumadas | P2/codigo/Entorno.py:180-213 | a reading with a wall penalty of 30 gets the same reward as one with no wall penalty: the penalty is computed and never added |
| EntornoP2.RecompensaAcotada | P2/codigo/Entorno.py:153-213 | every reward lies between -125 and 170 plus a tenth of the blob size |
| EntornoP2.RecompensaPerdido | P2/codigo/Entorno.py:153-199 | with x = -1 the reward is -105 plus the size, infrared and rear terms: the lost penalty, the -5 centring value and no bonus |
| EntornoP2.CentradoMonotono | P2/codigo/Entorno.py:153-159 | a blob closer to the centre never gets a lower centring term |
| EntornoP2.IRMonotono | P2/codigo/Entorno.py:165-174 | a stronger front reading never gets a lower infrared term |
| EntornoP2.BonusImplicaBuenosTerminos | P2/codigo/Entorno.py:153-199 | the bonus is paid only when the centring term is at least 10 and the infrared term at least 50 |
| EntornoP2.Entorno.constructor | P2/codigo/Entorno.py:26-60 | zero velocity, empty episode and history lists, readings at their sentinels (-1, -1), [0, 0] and -1, no reset yet |
| EntornoP2.Entorno.Observar | P2/codigo/Entorno.py:81-89 | the observation holds the stored blob position, infrared vector, blob size and both velocity components |
| EntornoP2.Entorno.Reset | P2/codigo/Entorno.py:96-130 | the episode lists are appended to the history only when a reward was recorded; then they are cleared, the counter becomes 1, the readings are stored, one object and one robot position are recorded, and the velocity is unchanged |
| EntornoP2.Entorno.Step | P2/codigo/Entorno.py:216-259 | wheels get old + (a+g) and old + (a-g) unclamped; stored velocity is the clip to [-15, 15]; before any reset it fails after moving the wheels, which holds with the default `verboso=False` (with `verboso=True` the progress print at :219 reads the missing counter first); `terminated == truncated ==` (counter == steps per episode) read before the increment; an infrared vector shorter than 6 fails after the increment; otherwise exactly one reward, computed from the readings held before the step, and one position of each kind are appended, and the new readings are stored; the history is untouched |
| EntornoP2.Entorno.Archiva | P2/codigo/Entorno.py:103-106 | the episode moves into the history exactly when it holds a reward, and the history stays coherent |
| EntornoP2.Entorno.ActualizaVelocidad | P2/codigo/Entorno.py:220-228 | the wheel command is the unclamped sum and each stored component is clip(old + delta, -15, 15) |
| EntornoP2.Entorno.Registra | P2/codigo/Entorno.py:239-254 | one reward and one position of each kind appended and the new readings stored; counter and history unchanged |
| EntornoP2.DobleResetNoDuplica | P2/codigo/Entorno.py:104-112 | two resets in a row add at most one episode to the history, and only if the current episode holds a reward |
| EntornoP3.TerminoAtras | P3/codigo/Entorno.py:135-137 | the rear term -alpha3·max(0, atras-58) is 0 up to a reading of 58, never positive for alpha3 >= 0, and negative above 58 for alpha3 > 0 |
| EntornoP3.Recompensa | P3/codigo/Entorno.py:128-137 | `_get_recompensa` with a non-zero `sigma`: the two Gaussian bumps through the exponential parameter, the rear term and the size term; its rear-term facts are the lemmas below |
| EntornoP3.RecompensaSinDistancia | P3/codigo/Entorno.py:128-137 | the same reward once `exp(-(d/sigma)**2)` is 0: centring, rear and size terms only (used by `RecompensaPaso` for a zero `sigma`) |
| EntornoP3.Terminado | P3/codigo/Entorno.py:155-158 | both flags are the test counter == steps per episode before the increment (used by `Entorno.Step` and `Episodio`, which proves only the last step terminates) |
| EntornoP3.RecompensaSoloAtrasDependeDeAtras | P3/codigo/Entorno.py:133-137 | for every exponential function, two rewards that differ only in the rear reading differ exactly by their rear terms |
| EntornoP3.RecompensaNoCreceConAtras | P3/codigo/Entorno.py:135-137 | with alpha3 >= 0 a larger rear reading never raises the reward, and up to 58 it leaves the reward unchanged |
| EntornoP3.Entorno.constructor | P3/codigo/Entorno.py:23-54 | weights, scale and step count as given, zero velocity, empty lists, readings at their sentinels, no reset yet |
| EntornoP3.Entorno.Observar | P3/codigo/Entorno.py:75-83 | the observation holds the stored readings and both velocity components |
| EntornoP3.Entorno.Reset | P3/codigo/Entorno.py:90-126 | history is flushed only when the reward list is non-empty; then the three lists are cleared, the counter is 1, the readings are stored with one position of each kind, and the velocity is unchanged |
| EntornoP3.Entorno.Step | P3/codigo/Entorno.py:139-182 | before a reset it fails at the progress print, with no wheel command and the velocity unchanged; otherwise the wheels get the unclamped sums, the stored velocity is clipped to [-2, 2], and the termination flag is (counter == steps per episode) before the increment; a failing reward (`RecompensaPaso`) appends nothing; otherwise one reward from the pre-step readings and pre-step rear value, and one position of each kind, are appended; the history is untouched |
| EntornoP3.RecompensaPaso | P3/codigo/Entorno.py:133-137 | with a non-zero `sigma`, the full reward at the distance's value; with a zero `sigma`: a Python float distance raises, a numpy 0 has no real value, and any other numpy distance gives the reward without its distance term |
| EntornoP3.Entorno.Archiva | P3/codigo/Entorno.py:96-100 | the episode moves into the history exactly when it holds a reward, and the history stays coherent |
| EntornoP3.PasoDeEpisodio | P3/codigo/Entorno.py:139-182 | after a reset and with a non-zero `sigma`, a step succeeds, appends the reward of the readings held before it, and stores the new readings |
| EntornoP3.Entorno.ActualizaVelocidad | P3/codigo/Entorno.py:143-151 | the wheel command is the unclamped sum and each stored component is clip(old + delta, -2, 2) |
| EntornoP3.Entorno.Registra | P3/codigo/Entorno.py:162-177 | one reward and one position of each kind appended and the new readings stored |
| EntornoP3.Episodio | P3/codigo/Entorno.py:109-164 | after a reset and n steps only the n-th step reports termination, n rewards are recorded, and reward k is the reward of the readings held before step k |
| RoboboApiP1.GetXY | P1/codigo/RoboboAPI.py:13-22 | the first blob's (posx, posy), or (-1, -1) without blobs |
| RoboboApiP1.GetTamanoBlob | P1/codigo/RoboboAPI.py:39-48 | the first blob's size, or -1 without blobs |
| RoboboApiP1.LectoresCoherentes | P1/codigo/RoboboAPI.py:17-48 | position and size come from the same blob, or both are their sentinels |
| RoboboApiP1.GetIR | P1/codigo/RoboboAPI.py:28-37 | the empty list gives [0, 0]; a dictionary with both keys gives [Front-C, Back-C]; it fails exactly on a dictionary missing a key; every value has length 2; P3's `_get_IR` (P3/codigo/RoboboAPI.py:96-102) is the same reader |
| RoboboApiP1.DiccionarioVacioFalla | P3/codigo/RoboboAPI.py:96-102 | an empty dictionary reading raises a KeyError instead of giving [0, 0] |
| RoboboApiP1.GetIRCorregido | P3/codigo/RoboboAPI.py:96-102 | corrected reader: never fails, always two values, agrees with the source wherever the source returns, and gives [0, 0] for both kinds of empty reading |
| RoboboApiP1.ObjetoMedido | P1/codigo/RoboboAPI.py:55-60 | the (x, y) left in `x_obj, y_obj` by the loop: the last object's, or (0, 0) without objects; `DistanciaCuadradaABlob` is proved to use it |
| RoboboApiP1.DistanciaCuadradaABlob | P1/codigo/RoboboAPI.py:51-63 | the loop leaves the last object's (x, y), or (0, 0) without objects, and the squared distance to the robot's (x, y) is taken from it |
| RoboboApiP3.GetXY | P3/codigo/RoboboAPI.py:15-38 | real world: (-1, -1) without a frame, else the detector's (x, y); simulation: the P1 reader |
| RoboboApiP3.GetXYMundoRealAcotado | P3/codigo/RoboboAPI.py:17-30 | in the real world the position is the sentinel or inside [0, 100]² |
| RoboboApiP3.GetTamanoBlob | P3/codigo/RoboboAPI.py:41-58 | real world: -1 without a frame, else the detector's area; simulation: the first blob's size or -1 |
| RoboboApiP3.GetObjectXZ | P3/codigo/RoboboAPI.py:61-76 | (0, 0) in the real world or without objects, else the first object's (x, z) |
| RoboboApiP3.GetRobotXZ | P3/codigo/RoboboAPI.py:79-89 | (0, 0) in the real world, else the robot's (x, z) |
| RoboboApiP3.DistanciaABlob | P3/codigo/RoboboAPI.py:105-138 | real world: 100 when the re-read size is <= 0, else 1·sqrt(5000/size); simulation: 100 without objects, else sqrt of the squared (x, y) distance to the first object |
| RoboboApiP3.DistanciaLejanaSinDeteccion | P3/codigo/RoboboAPI.py:111-117 | in the real world, no frame or no positive-confidence target box gives the distance 100 for every square-root function |
| RoboboApiP3.PasoConservaMagnitud | P3/codigo/RoboboAPI.py:173-180 | however the sign flips accumulate, the step keeps the magnitude \|dx\| |
| RoboboApiP3.DesplazadoConservaMagnitud | P3/codigo/RoboboAPI.py:167-187 | each rewritten position keeps y and moves x by exactly \|dx\| and z by exactly \|dz\| |
| RoboboApiP3.MoverBlobRandomWalk | P3/codigo/RoboboAPI.py:152-190 | nothing is written in the real world or without objects; otherwise one position per object, in order, each the object moved by the accumulated signed steps, keeping y and moving x and z by exactly \|dx\| and \|dz\| |
| SensorObjeto.Mejor | P3/codigo/SensorObjeto.py:47-54 | the running pick is an index of the boxes |
| SensorObjeto.MejorEsElPrimerMaximo | P3/codigo/SensorObjeto.py:44-57 | no pick exactly when no target box has positive confidence; otherwise the pick is a target box of maximal confidence and every earlier target box has strictly less, so ties go to the first |
| SensorObjeto.Normaliza | P3/codigo/SensorObjeto.py:59-77 | x, y in [0, 100]; inside the frame they are the truncated percentages of the centre over 640 × 480, outside they are clipped to the nearest edge; the area is truncated toward zero and not clipped |
| SensorObjeto.TamanoPuedeSerNegativo | P3/codigo/SensorObjeto.py:71 | a box with inverted corners gives the size -200 |
| SensorObjeto.Deteccion | P3/codigo/SensorObjeto.py:21-77 | `detectar_objeto` as a function: the sentinel without a frame, boxes or pick, else the normalised pick; its meaning is stated by `DeteccionAcotada` and `DeteccionSentinelaSiiSinCandidato`, and the loop `DetectarObjeto` is proved equal to it |
| SensorObjeto.DeteccionAcotada | P3/codigo/SensorObjeto.py:34-77 | the result is the sentinel or a position inside [0, 100]² |
| SensorObjeto.DeteccionSentinelaSiiSinCandidato | P3/codigo/SensorObjeto.py:34-57 | the sentinel comes back exactly when there is no frame or no target box of positive confidence; otherwise it is the normalised first most-confident target box |
| SensorObjeto.DetectarObjeto | P3/codigo/SensorObjeto.py:21-77 | the loop's result is the detection function's: sentinel for no frame or no boxes, else the normalised running-maximum box |
| Vision.Nombre | P3/codigo/vision.py:3-52 | each outcome's label is one of the eight fixed strings |
| Vision.NombreInyectivo | P3/codigo/vision.py:3-52 | different outcomes carry different labels |
| Vision.AnchoHombros | P3/codigo/vision.py:26-28 | the shoulder width is positive: \|x6 - x5\|, or 1 when that is 0 |
| Vision.DetectarPosicionBrazos | P3/codigo/vision.py:4-5 | fewer than 11 keypoints give "SIN BRAZOS"; the in-class copy in P3/codigo/ModeloTelecontrol.py:112-161 is the same decision list |
| Vision.EtiquetaFija | P3/codigo/vision.py:3-52 | every classification is one of the eight labels |
| Vision.SinBrazosSii | P3/codigo/vision.py:4-18 | "SIN BRAZOS" exactly when there are fewer than 11 keypoints or neither wrist has both coordinates positive |
| Vision.ArribaExcluyeAbajo | P3/codigo/vision.py:33-36 | a wrist is never both up and down |
| Vision.UnBrazoSii | P3/codigo/vision.py:39-48 | "BRAZO DERECHO" exactly when a wrist is found and only the right arm is up; "BRAZO IZQUIERDO" symmetrically |
| Vision.AmbosArriba | P3/codigo/vision.py:39-52 | with both arms up the outcome is never a one-arm gesture: "MANOS JUNTAS ARRIBA" under 0.5 widths, "BRAZOS EN CRUZ" over 1.5, "BRAZOS RELAJADOS" in between |
| Vision.SignificadoDeDosBrazos | P3/codigo/vision.py:39-52 | "BRAZOS ABAJO" and "MANOS JUNTAS PECHO" exactly under their rule and the failure of the earlier ones; "BRAZOS RELAJADOS" only when no earlier rule holds |
| Vision.SoloHombrosYMunecas | P3/codigo/vision.py:8-36 | two keypoint lists that agree on points 5, 6, 9 and 10 are classified alike |
| Vision.MunecaPerdidaCuentaComoArriba | P3/codigo/vision.py:13-42 | a missing wrist reported at (0, 0) counts as raised: one raised right wrist with the left missing gives "BRAZOS EN CRUZ" |
| Telecontrol.Efectiva | P3/codigo/ModeloTelecontrol.py:47 | `velocidad or base`: the given speed unless it is missing or 0 |
| Telecontrol.Crear | P3/codigo/ModeloTelecontrol.py:24-30 | the base speed is the given one unless it is missing or 0, then the configured one |
| Telecontrol.Normalizar | P3/codigo/ModeloTelecontrol.py:30-35 | the speed times 2/20, so 0..20 maps into 0..2 |
| Telecontrol.Derecha | P3/codigo/ModeloTelecontrol.py:37-53 | left-wheel delta v/10 and right-wheel delta 0 (likewise in P3/codigo/acciones_entorno.py:37-53) |
| Telecontrol.Izquierda | P3/codigo/ModeloTelecontrol.py:55-71 | left-wheel delta 0 and right-wheel delta v/10 (likewise in P3/codigo/acciones_entorno.py:55-71) |
| Telecontrol.Adelante | P3/codigo/ModeloTelecontrol.py:73-88 | both deltas v/10 and no turn (likewise in P3/codigo/acciones_entorno.py:73-89) |
| Telecontrol.Atras | P3/codigo/ModeloTelecontrol.py:90-103 | both deltas -v/10 and no turn (likewise in P3/codigo/acciones_entorno.py:91-104) |
| Telecontrol.Quieto | P3/codigo/ModeloTelecontrol.py:105-109 | the zero action; `QuietoNoCambiaRuedas` proves it changes neither wheel |
| Telecontrol.QuietoNoCambiaRuedas | P3/codigo/ModeloTelecontrol.py:105-109 | `quieto` changes neither wheel (likewise in P3/codigo/acciones_entorno.py:106-110) |
| Telecontrol.AccionesEnCaja | P3/codigo/ModeloTelecontrol.py:27-109 | for a speed in 0..20 every builder's components and wheel deltas lie in the action box [-2, 2] |
| Telecontrol.EsSubcadena | P3/codigo/ModeloTelecontrol.py:193 | a pattern longer than the string is never found |
| Telecontrol.EsSubcadenaSii | P3/codigo/ModeloTelecontrol.py:193 | the scan finds the pattern exactly when it occurs at some position of the string |
| Telecontrol.NoAparece | P3/codigo/ModeloTelecontrol.py:193 | a pattern one of whose characters matches no aligned character of the string does not occur in it |
| Telecontrol.AparecePieza | P3/codigo/ModeloTelecontrol.py:193 | a slice of the string is found in it |
| Telecontrol.Despacha | P3/codigo/ModeloTelecontrol.py:181-194 | the label if-chain of `predict`, ending in the substring test; `DespachaSigueLaTabla` and `SubcadenaDetiene` state what it does |
| Telecontrol.DespachaSigueLaTabla | P3/codigo/ModeloTelecontrol.py:181-194 | on the classifier's labels the dispatch is the table: one-arm gestures turn, relaxed arms or hands up go forward, hands at the chest go back, arms crossed stop, arms down and no arms give no action; the copy in P3/codigo/acciones_entorno.py:132-145 is the same table |
| Telecontrol.SubcadenaDetiene | P3/codigo/ModeloTelecontrol.py:193-194 | the empty string, "BRAZOS" and "EN CRUZ" also stop the robot, since the last test is a substring test |
| Telecontrol.Predict | P3/codigo/ModeloTelecontrol.py:163-194 | `predict` on the first person's keypoints: the classifier's label dispatched; `PredictSinAccion` and `AmbosArribaNoGira` state its outcomes |
| Telecontrol.PredictSinAccion | P3/codigo/ModeloTelecontrol.py:163-194 | no action exactly when the classifier says "SIN BRAZOS" or "BRAZOS ABAJO", and always with fewer than 11 keypoints |
| Telecontrol.AmbosArribaNoGira | P3/codigo/ModeloTelecontrol.py:163-194 | with a wrist found and both arms up the action is `adelante` or `quieto`, never a turn |
| UtilsP2.VectorizaObservacion | P2/codigo/utils.py:36-42 | the vector has length 2 + \|IR\| + 1 and holds the blob position, then the infrared values, then the blob size |
| UtilsP2.Devectoriza | P2/codigo/utils.py:36-42 | a vector is read back exactly when it has the length of a vectorised observation |
| UtilsP2.DevectorizaVectoriza | P2/codigo/utils.py:36-42 | round trip: reading a vector back gives the blob position, the infrared values and the size |
| UtilsP2.VectorIgnoraVelocidad | P2/codigo/utils.py:36-42 | observations differing only in the velocity give the same vector |
| UtilsP2.Escala | P2/codigo/utils.py:53-56 | each network output is multiplied by 15, so outputs in [-1, 1] give actions in [-15, 15] |
| UtilsP2.AccionPara | P2/codigo/utils.py:53-56 | the action `net.activate(vectoriza_observacion(obs)) * velocidad_max` for the held readings, through `VectorizaObservacion`; `PasoEvaluacion` proves it is the action computed from the environment's observation |
| UtilsP2.PasoEvaluacion | P2/codigo/utils.py:53-59 | one pass: the action is the network's for the held readings. The step fails exactly when the infrared vector is too short; then rewards and positions stay those of the earlier steps, the history is untouched, and the velocity has taken the action. Otherwise the episode is one action further: the reward of the held readings and one position of each kind appended, the new readings held, the velocity clipped once more, the history untouched |
| UtilsP2.EvaluaGenoma | P2/codigo/utils.py:44-65 | succeeds exactly when every step of the episode finds at least 6 infrared values; it runs all steps of an episode, fails only with the infrared error, computes action k from the readings held before step k scaled by 15, computes reward k from the same readings, and returns the sum of the rewards of the steps taken. The reset moves the previous episode into the history exactly when it holds a reward, and the loop leaves the history alone. The position lists hold the reset's position and one per step taken, and the velocity is the chain of clips over the actions sent, including the failing step's |
| UtilsP2.Episodio | P2/codigo/utils.py:48-62 | the loop of `evalua_genoma` from the reset's state, with the same guarantees on the rewards, actions, positions and velocity; the history is unchanged |
| UtilsP2.Decimal | P2/codigo/utils.py:16 | `str(counter)` is a non-empty string of digits |
| UtilsP2.ValorDecimal | P2/codigo/utils.py:16 | reading the digits back gives the number |
| UtilsP2.DecimalInyectivo | P2/codigo/utils.py:16 | different counters are written differently |
| UtilsP2.CandidatosDistintos | P2/codigo/utils.py:15-16 | the alternative names are pairwise distinct and all differ from the original name |
| UtilsP2.ElegirNombre | P2/codigo/utils.py:10-17 | the chosen name never exists; it is the original when that is free, otherwise `base_k + ext` for the smallest k >= 2 whose name is free |

## Left out

- Communication with the robot and the simulator is not modelled: `connect`, `moveWheels`, `resetSimulation`, `moveTiltTo`, `getObjects`, `getObjectLocation`, `setObjectLocation`, and the waits and sleeps. These are foreign calls. Their results are inputs (`Lectura`, the blob, box and object sequences). The wheel command is a returned value.
- EntornoP2.Entorno.Step: the numpy `float32` storage of the velocity is modelled as exact reals, so rounding is not modelled. The same holds for EntornoP3.Entorno.Step and for the builders' `float32` arrays.
- EntornoP2.Entorno.Step: the call to `mover_blob_random_walk` at the end of the step is not modelled. P2's own `RoboboAPI` module is not part of this model. The P3 random walk is modelled on its own as RoboboApiP3.MoverBlobRandomWalk and is not invoked from EntornoP3.Entorno.Step.
- EntornoP2.Entorno.Reset: the optional repositioning of the robot to `posicion_inicial` is left out, because it only talks to the simulator. Gym's `seed` argument is left out too.
- EntornoP2.Entorno.Step: the infrared vector's length depends on P2's `RoboboAPI` module. That module is not part of this model, so any length is accepted, and a vector shorter than 6 takes the error path.
- EntornoP3.Entorno.Reset: the readings come from the corrected infrared reader. The as-written reader's KeyError does not reach the model: it would come after the history flush, the list clearing, `numero_de_pasos = 1` and the new blob position (P3/codigo/Entorno.py:96-112), leaving a half-reset environment.
- EntornoP3.Entorno.Step: the readings come from the corrected infrared reader. The as-written reader's KeyError does not reach the model: it would come after the reward append and the new blob position (P3/codigo/Entorno.py:164-169), leaving one more reward than positions.
- EntornoP3.Entorno.Step: with a zero `sigma` and a numpy distance of 0 the source appends a NaN reward. A real cannot hold NaN, so the model reports `Indefinida` and appends nothing. `_distancia_a_blob` never gives such a distance, because its estimate is the square root of a positive quotient.
- Vision.DetectarPosicionBrazos: the pose keypoints and the threshold arithmetic are modelled as exact reals, not numpy `float32`. This covers the shoulder width `abs(x6 - x5)`, the arm bands `altura_hombro - 0.5 * ancho_hombros` and `altura_hombro + 1.0 * ancho_hombros`, and the wrist-distance thresholds `0.5`, `1.5`, `0.3` and `0.2` times the width. A keypoint exactly at a threshold may then get a different label than in the source. The same holds for Vision.AmbosArriba, Vision.UnBrazoSii and Vision.SignificadoDeDosBrazos, which are stated about it.
- SensorObjeto.Normaliza: the detector's `float32` coordinates are modelled as exact reals. Truncation at a boundary may then differ by one from the source.
- EntornoP2.Recompensa: Python floats (float64) are modelled as exact reals, so rounding is not modelled in the size term `tamano * 0.1` or in the wall factors. The bounds and values proved about the reward hold for the source only up to that rounding.
- EntornoP3.Recompensa: Python and numpy floats are modelled as exact reals, so rounding is not modelled in the reward, in the distance estimate of RoboboApiP3.DistanciaABlob, or in the speed normalisation `* 2 / 20` of Telecontrol.Normalizar.
- EntornoP3.Recompensa: `math.exp` is a function parameter, so only facts that hold for every exponential are proved: the rear term and its monotonicity.
- RoboboApiP3.DistanciaABlob: the square roots are a function parameter.
- RoboboApiP1.DistanciaCuadradaABlob: the final square root is left out, so the result is the squared distance.
- The robot's `moveTiltTo` call in `reset` is left out.
- Detection models and drawing are not modelled. This covers the YOLO inference in `detectar_objeto` and `predict`, `visualizar_deteccion`, `putText`, `imshow` and `waitKey`. The detector's boxes and the pose keypoints are inputs.
- Telecontrol.Predict: the keypoints are those of the first person the estimator returns. Indexing `[0]` when nobody is seen raises in the source, and that case is not modelled.
- The camera capture thread (`camara.py`) is left out because it adds concurrency. The frame is an input, `None` or a list of boxes.
- The random draws of `mover_blob_random_walk` are inputs (`mantenerX`, `mantenerZ`).
- The YAML configuration is read at import time. The configured speed is the parameter `velocidadConfig` of `Telecontrol.Crear`.
- UtilsP2.EvaluaGenoma: the NEAT network built from the genome is left out. The model uses the function `red` instead, and the verbose print is left out as well.
- UtilsP2.EvaluaGenoma: the observation's velocity is the environment's own buffer (aliasing). That aliasing is not modelled, because the velocity does not reach the vector.
- UtilsP2.ElegirNombre: the name arrives already split into `base + ext`, so `os.path.splitext` is not modelled. `os.makedirs`, the pickle write, the print and the returned `basename` without extension are left out. `carga_genoma` only reads a pickle, so it is left out too.
- Printing, the `info` dictionary and the `verboso` flag are left out.
- Other parts of the repository are not part of this model:
  - P1's environment;
  - P2's second variant (`2.1`);
  - `Modelo.py` and `acciones.py`;
  - the plots, the UI, and the training, test and main scripts.

## Findings

The P3 environment's readings hold the two-value infrared vector that the
corrected reader always returns (`EntornoP3.LecturaBienFormada`). The
partial reset and step that the as-written reader's KeyError would leave
are listed under "Left out".

| source | as written | input that shows it | evidently intended | confidence | as-written member | corrected member |
|---|---|---|---|---|---|---|
| P3/codigo/RoboboAPI.py:96-102 | `irs != []` compares the reading with an empty list, but `readAllIRSensor()` returns a dictionary, which is never equal to `[]`, so an empty reading indexes `"Front-C"` | an empty dictionary reading `{}` raises a KeyError | an empty reading gives the default [0, 0] | not executed; medium | RoboboApiP1.GetIR, RoboboApiP1.DiccionarioVacioFalla | RoboboApiP1.GetIRCorregido |
