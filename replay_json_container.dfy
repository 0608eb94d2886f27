/** The ReplayJsonContainer of the logic/ driver: everything it knows about
    one robot's session. The type's declaration is not part of this model; its
    fields are the ones util/util.go and logic/ read and assign. */
module Containers {
  import opened Types

  /** The values of a container's fields at one moment: the struct value
      itself, as it is copied into and out of a channel */
  datatype ContainerState = ContainerState(
    robotName: string, robotPath: string, outputDir: string, replayDirAbs: string, replayJsonPath: string,
    replayJson: Info, nJobs: int, compressionLevel: int, modifyOriginal: bool)

  /** `models.ReplayJsonContainer{}` as a value */
  const ZeroContainer := ContainerState("", "", "", "", "", Info([], []), 0, 0, false)

  class ReplayJsonContainer {
    var robotName: string
    var robotPath: string
    var outputDir: string
    var replayDirAbs: string
    var replayJsonPath: string
    var replayJson: Info
    var nJobs: int
    var compressionLevel: int
    var modifyOriginal: bool

    ghost function State(): ContainerState
      reads this
    {
      ContainerState(robotName, robotPath, outputDir, replayDirAbs, replayJsonPath,
                     replayJson, nJobs, compressionLevel, modifyOriginal)
    }

    /** A container holding a copy of the value `s` */
    constructor FromState(s: ContainerState)
      ensures State() == s
    {
      robotName, robotPath, outputDir, replayDirAbs, replayJsonPath := s.robotName, s.robotPath, s.outputDir, s.replayDirAbs, s.replayJsonPath;
      replayJson := s.replayJson;
      nJobs, compressionLevel, modifyOriginal := s.nJobs, s.compressionLevel, s.modifyOriginal;
    }
  }
}
