/**
 * The three scripts as one parameterised pipeline: what differs between
 * them is the debounce window, the retry count, whether a ready flag
 * gates processing, whether the threshold can be set, what is published,
 * the relabel tags and whether a blurred composite is displayed.
 */
module Scripts {
  import opened Common
  import opened AngleMap
  import opened Alerting
  import opened GaugeRead

  /** The watcher's constants: the debounce window in milliseconds and the move attempts. */
  datatype WatcherConfig = WatcherConfig(debounceMs: int, retries: nat)

  datatype Config = Config(
    cwd: Path,                      // os.getcwd(): the watched directory and the base of relative paths
    calib: Calibration,
    watcher: Option<WatcherConfig>, // None for the script without a watcher
    readyFlag: bool,                // whether `new_image_ready` gates processing
    thresholdSettable: bool,        // whether `set_threshold` exists
    payload: PayloadKind,
    goodTag: string,
    badTag: string,
    blurKernel: int,
    compositeDisplay: bool          // whether the display shows a blurred copy beside the image
  )

  predicate ValidConfig(c: Config)
  {
    Valid(c.calib)
  }

  /** The blur kernel the display uses, when it shows the composite. */
  function DisplayKernel(c: Config): (k: Option<int>)
    ensures k.Some? ==> IsOdd(k.value) && 0 <= k.value - c.blurKernel <= 1
  {
    if c.compositeDisplay then Some(OddKernel(c.blurKernel)) else None
  }

  /** A2DGaugeReader1Image.py: 1.5 s debounce, 10 moves, ready flag, settable threshold, value payload. */
  function ImageOne(cwd: Path): Config
  {
    Config(cwd, Meter, Some(WatcherConfig(1500, 10)), true, true, SendValue, "_GOOD", "_BAD", 21, false)
  }

  /** A2DGaugeReader.py: 2.0 s debounce, 6 moves, no ready flag, threshold 25, value payload. */
  function Reader(cwd: Path): Config
  {
    Config(cwd, Meter, Some(WatcherConfig(2000, 6)), false, false, SendValue, "_GOOD", "_BAD", 21, true)
  }

  /** A2D_RMCK_V1.py: no watcher, threshold 25, constant payload, tags "_GOOD_" and "_BAD_". */
  function Rmck(cwd: Path): Config
  {
    Config(cwd, Meter, None, false, false, SendText("generate_workorder"), "_GOOD_", "_BAD_", 21, true)
  }

  /** Every script is calibrated validly, and the two composite displays blur with a 21x21 kernel. */
  lemma ScriptsAreValid(cwd: Path)
    ensures ValidConfig(ImageOne(cwd)) && ValidConfig(Reader(cwd)) && ValidConfig(Rmck(cwd))
    ensures DisplayKernel(ImageOne(cwd)) == None
    ensures DisplayKernel(Reader(cwd)) == Some(21) && DisplayKernel(Rmck(cwd)) == Some(21)
  {
  }
}
