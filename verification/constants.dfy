/** The endpoint names and fixed messages the protocol layer uses. */
module Constants {
  const HostUrl: string := "host"
  const UploadUrl: string := "upload"
  const LoginUrl: string := "login"
  const ConfigUrl: string := "config"
  const ApiInfoUrl: string := "info"
  const SpaceStatusErrorMsg: string := "Could not get space status. "

  /** The registry's space API, under which both the host lookup and the
      status poll live. */
  const SpacesApi: string := "https://huggingface.co/api/spaces/"

  /** The file-kind marker of the upload envelope. */
  const FileDataType: string := "gradio.FileData"
}
