/** Constants shared by the integration's entities and its configuration wizard. */
module Const {
  const DOMAIN := "postown_smartweb"
  const CONF_DEVICES := "devices"
}
