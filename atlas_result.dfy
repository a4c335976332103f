/** The result codes the controller reports (`AtlasResult`). */
module AtlasResults {

  datatype AtlasResult =
    | FailedToLocateEntryType
    | FailedToInstantiateEntryType
    | FailedToLocateEntryMethod
    | FailedToLocateFile
    | FailedToLocateDirectory
    | FailedToLoadAssembly
    | FailedToInvokeEntryMethod
    | FailedVersionMismatch
    | FailedAlreadyLoaded
    | Success
}
