/** auth_method and password_dissectors: what management requests set for the whole process. */
module ProxySettings {
  import opened Bytes

  class Settings {
    var authMethod: byte
    var dissectors: byte

    constructor (authMethod: byte, dissectors: byte)
      ensures this.authMethod == authMethod && this.dissectors == dissectors
    {
      this.authMethod, this.dissectors := authMethod, dissectors;
    }
  }
}
