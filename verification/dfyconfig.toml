# Dafny project: verify with `dafny verify dfyconfig.toml`
includes = ["**/*.dfy"]
