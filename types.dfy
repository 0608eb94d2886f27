/** The data the converter works on: the parsed replay manifest (`Info` in
    models/models.go), the per-frame work item and the worker reply
    (converter/models.go), and the directory entries it lists. */
module Types {
  import opened Wrappers

  /** Go's byte / uint8 */
  type uint8 = x: int | 0 <= x < 0x100

  /** Go's uint16 */
  type uint16 = x: int | 0 <= x < 0x1_0000

  /** A [2]uint16 image size: width, then height */
  datatype Size = Size(width: uint16, height: uint16)

  /** Go's `w * 2` on a uint16: the product wraps around modulo 2^16 */
  function Twice16(w: uint16): (r: uint16)
    ensures w < 0x8000 ==> r == 2 * w
    ensures w >= 0x8000 ==> r == 2 * w - 0x1_0000
  {
    (2 * w) % 0x1_0000
  }

  /** The telemetry of a frame record (ball detection, IMU, joint angles, sonar,
      ...), which the converter only carries along; opaque here. */
  datatype Telemetry = Telemetry(timestamp: int, values: seq<int>)

  /** One element of the manifest's `frames` array */
  datatype FrameRecord = FrameRecord(
    topImage: string,
    bottomImage: string,
    imageSize422: Size,
    telemetry: Telemetry)

  /** The parsed replay.json: an opaque `config` array and the frame records */
  datatype Info = Info(config: seq<int>, frames: seq<FrameRecord>)

  /** converter.FrameContainer: one conversion job */
  datatype FrameContainer = FrameContainer(
    isTop: bool,            // the image comes from the top camera
    path422: string,        // the packed source file
    pngFileName: string,    // the png name relative to the manifest
    pathPngAbs: string,     // where the png is written
    imageSize422: Size,
    imageSize444: Size,
    compression: int)       // png.CompressionLevel, an int passed through unchecked

  /** Go's zero value of FrameContainer, which `make` fills a slice with */
  const ZeroFrame := FrameContainer(false, "", "", "", Size(0, 0), Size(0, 0), 0)

  /** converter.WorkerReply: a worker's report on one frame */
  datatype WorkerReply = WorkerReply(frame: FrameContainer, success: bool, err: Option<string>, msg: string)

  /** One entry of a directory listing (ioutil.ReadDir) */
  datatype DirEntry = DirEntry(name: string, isDir: bool)

  /** A directory listing or the error reading it */
  type Listing = Result<seq<DirEntry>, string>

  /** Why loading a manifest failed */
  datatype LoadError = ReadError | ParseError

  /** A png.Encoder: only its compression level is modelled */
  datatype Encoder = Encoder(compressionLevel: int)

  /** The end of an operation that the source may end by terminating the whole
      process (log.Fatalln, errors.Check's panic, an index out of range, or the
      Go runtime's deadlock detection) */
  datatype Status = Ok | Fatal(msg: string)
}
